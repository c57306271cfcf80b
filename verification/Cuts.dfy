/**
 The network with connections that break.  The handlers at both ends are destroyed, and
 each withdraws what is on its lists; messages under way between the two are lost.
 */
module Cuts {
  import opened Sequences
  import opened Sums
  import opened Topology
  import opened Tables
  import opened Network
  import opened Conservation
  import opened Handlers
  import opened Disconnects

  /** The network, and what each gateway's handlers have on their lists. */
  datatype Web = Web(net: Net, lists: map<GatewayId, map<GatewayId, Neighbour>>)

  datatype WebStep = Go(step: Step) | Cut(a: GatewayId, b: GatewayId)

  function ListsOf(w: Web, x: GatewayId): map<GatewayId, Neighbour>
  {
    if x in w.lists then w.lists[x] else map[]
  }

  /** A new handler has nothing on its lists. */
  function Listed(lists: map<GatewayId, Neighbour>, id: GatewayId): Neighbour
  {
    if id in lists then lists[id] else Neighbour([], [], {})
  }

  function WithList(w: Web, x: GatewayId, id: GatewayId, n: Neighbour): map<GatewayId, map<GatewayId, Neighbour>>
  {
    w.lists[x := ListsOf(w, x)[id := n]]
  }

  function ListsAfter(w: Web, s: Step): map<GatewayId, map<GatewayId, Neighbour>>
    requires Enabled(w.net, s)
  {
    match s
    case Associate(from, to) => WithList(w, to, from, Neighbour([], [], {}))
    case DeliverControl(from, to) =>
      var c := w.net.nodes[from].links[to].control[0];
      WithList(w, to, from, NeighbourAfterControl(w.net.nodes[to], Listed(ListsOf(w, to), from), from, c))
    case DeliverData(from, to, i) =>
      WithList(w, to, from, NeighbourAfterData(Listed(ListsOf(w, to), from), w.net.nodes[from].links[to].data[i]))
    case _ => w.lists
  }

  /** A gateway after its handler for `y` has been destroyed; one that never associated does nothing. */
  function WithoutNeighbour(g: Gateway, lists: map<GatewayId, Neighbour>, y: GatewayId): Gateway
  {
    if y in g.links then CloseNeighbour(g, Listed(lists, y), y) else g
  }

  function EndClosed(w: Web, x: GatewayId, y: GatewayId): Gateway
    requires x in w.net.nodes
  {
    WithoutNeighbour(w.net.nodes[x], ListsOf(w, x), y)
  }

  predicate WebEnabled(w: Web, s: WebStep)
  {
    match s
    case Go(step) => Enabled(w.net, step)
    case Cut(a, b) => (a, b) in w.net.conns && a in w.net.nodes && b in w.net.nodes && a != b
  }

  /** The network without a connection, with new tables at its ends. */
  function Parted(n: Net, a: GatewayId, b: GatewayId, ga: Gateway, gb: Gateway): Net
  {
    Net(n.nodes[a := ga][b := gb], n.conns - {(a, b), (b, a)}, n.greeting - {(a, b), (b, a)})
  }

  function NetAfterCut(w: Web, a: GatewayId, b: GatewayId): Net
    requires WebEnabled(w, Cut(a, b))
  {
    Parted(w.net, a, b, EndClosed(w, a, b), EndClosed(w, b, a))
  }

  function WebApply(w: Web, s: WebStep): Web
    requires WebEnabled(w, s)
  {
    match s
    case Go(step) => Web(Apply(w.net, step), ListsAfter(w, step))
    case Cut(a, b) =>
      Web(NetAfterCut(w, a, b), w.lists[a := ListsOf(w, a) - {b}][b := ListsOf(w, b) - {a}])
  }

  predicate WebRuns(w: Web, run: seq<WebStep>, w': Web)
    decreases run
  {
    if run == [] then w == w' else WebEnabled(w, run[0]) && WebRuns(WebApply(w, run[0]), run[1..], w')
  }

  predicate WebInitial(w: Web)
  {
    Initial(w.net) && w.lists == map[]
  }

  // ----- what every step keeps -----

  function HubAt(w: Web, x: GatewayId): Hub
    requires x in w.net.nodes
  {
    Hub(w.net.nodes[x], map[], ListsOf(w, x))
  }

  ghost predicate ListsInStep(w: Web)
  {
    forall x :: x in w.net.nodes ==> NeighboursTracked(HubAt(w, x))
  }

  ghost predicate WebOk(w: Web)
  {
    WellFormed(w.net) && ListsInStep(w)
  }

  lemma InitialOk(w: Web)
    requires WebInitial(w)
    ensures WebOk(w) && Conserved(w.net)
  {
    InitialGood(w.net);
    EmptyTracked();
    forall x | x in w.net.nodes ensures NeighboursTracked(HubAt(w, x)) { assert HubAt(w, x) == EmptyHub; }
  }

  lemma ActSameNeighbours(g: Gateway, s: LocalStep)
    ensures SameNeighbours(g, Act(g, s))
  {
    ActKeepsNeighbours(g, s);
  }

  /** The gateway that a step leaves lists of alone. */
  lemma SameLists(w: Web, w': Web, x: GatewayId)
    requires x in w.net.nodes && x in w'.net.nodes && NeighboursTracked(HubAt(w, x))
    requires ListsOf(w', x) == ListsOf(w, x) && SameNeighbours(w.net.nodes[x], w'.net.nodes[x])
    ensures NeighboursTracked(HubAt(w', x))
  {
    SameNeighboursTracked(HubAt(w, x), HubAt(w', x));
  }

  lemma AssociateKeepsLists(w: Web, from: GatewayId, to: GatewayId)
    requires WebOk(w) && Enabled(w.net, Associate(from, to))
    ensures NeighboursTracked(HubAt(WebApply(w, Go(Associate(from, to))), to))
  {
    var u := HubAt(w, to);
    assert UpToDate(w.net, to) && NeighboursTracked(u);
    assert from !in u.g.links.Keys;
    AssociatedKeepsNeighbours(u, from);
  }

  lemma ControlKeepsLists(w: Web, from: GatewayId, to: GatewayId)
    requires WebOk(w) && Enabled(w.net, DeliverControl(from, to))
    ensures NeighboursTracked(HubAt(WebApply(w, Go(DeliverControl(from, to))), to))
  {
    var u := HubAt(w, to);
    LinkedBack(w.net, from, to);
    assert NeighboursTracked(u) && from in u.g.links.Keys;
    ToldKeepsNeighbours(u, from, w.net.nodes[from].links[to].control[0]);
  }

  lemma DataKeepsLists(w: Web, from: GatewayId, to: GatewayId, i: nat)
    requires WebOk(w) && Enabled(w.net, DeliverData(from, to, i))
    ensures NeighboursTracked(HubAt(WebApply(w, Go(DeliverData(from, to, i))), to))
  {
    var u := HubAt(w, to);
    LinkedBack(w.net, from, to);
    assert NeighboursTracked(u) && from in u.g.links.Keys;
    SentKeepsNeighbours(u, from, w.net.nodes[from].links[to].data[i]);
  }

  /** The gateway at which something arrives. */
  function Receiver(s: Step): set<GatewayId>
  {
    match s
    case Associate(_, to) => {to}
    case DeliverControl(_, to) => {to}
    case DeliverData(_, to, _) => {to}
    case _ => {}
  }

  lemma OthersKeepNeighbours(n: Net, s: Step, x: GatewayId)
    requires Enabled(n, s) && x in n.nodes && x !in Receiver(s)
    ensures x in Apply(n, s).nodes && SameNeighbours(n.nodes[x], Apply(n, s).nodes[x])
  {
    match s
    case Perform(at, step) => if x == at { ActSameNeighbours(n.nodes[at], step); }
    case Connect(_, _) =>
    case Associate(_, _) =>
    case DeliverControl(_, _) =>
    case DeliverData(_, _, _) =>
  }

  lemma OthersKeepLists(w: Web, s: Step, x: GatewayId)
    requires Enabled(w.net, s) && x !in Receiver(s)
    ensures ListsOf(WebApply(w, Go(s)), x) == ListsOf(w, x)
  {
  }

  lemma GoKeepsOk(w: Web, s: Step)
    requires WebOk(w) && Enabled(w.net, s)
    ensures WebOk(WebApply(w, Go(s)))
  {
    StepKeepsWellFormed(w.net, s);
    StepKeepsNodes(w.net, s);
    var w' := WebApply(w, Go(s));
    forall x | x in w'.net.nodes ensures NeighboursTracked(HubAt(w', x)) {
      assert x in w.net.nodes.Keys && NeighboursTracked(HubAt(w, x));
      if x in Receiver(s) {
        match s
        case Associate(from, to) => AssociateKeepsLists(w, from, to);
        case DeliverControl(from, to) => ControlKeepsLists(w, from, to);
        case DeliverData(from, to, i) => DataKeepsLists(w, from, to, i);
      } else {
        OthersKeepNeighbours(w.net, s, x);
        OthersKeepLists(w, s, x);
        SameLists(w, w', x);
      }
    }
  }

  // ----- one end of a cut -----

  /** The link goes, and with it every mention of `y`; what is held for others stays. */
  lemma NeighbourGoes(g: Gateway, lists: map<GatewayId, Neighbour>, y: GatewayId)
    requires Connected(g) && NeighboursTracked(Hub(g, map[], lists))
    ensures var g' := WithoutNeighbour(g, lists, y);
      && g'.links.Keys == g.links.Keys - {y} && Connected(g') && Gone(g', y)
      && (forall t, k :: k != y ==> Held(g', t, k) == Held(g, t, k))
  {
    var u := Hub(g, map[], lists);
    if y in g.links.Keys {
      assert y in u.neighbours && TracksNeighbour(g, lists[y], y);
      CloseNeighbourForgets(g, lists[y], y);
      WithdrawClears(g, lists[y], y);
      WithdrawKeepsLinks(g, lists[y], y);
    } else {
      assert y !in u.neighbours.Keys && Gone(g, y);
    }
  }

  lemma ListsStayInStep(g: Gateway, lists: map<GatewayId, Neighbour>, y: GatewayId)
    requires Connected(g) && NeighboursTracked(Hub(g, map[], lists))
    ensures NeighboursTracked(Hub(WithoutNeighbour(g, lists, y), map[], lists - {y}))
  {
    var u := Hub(g, map[], lists);
    if y in g.links.Keys {
      assert y in u.neighbours;
      ClosedKeepsNeighbours(u, y);
    } else {
      assert y !in lists.Keys && lists - {y} == lists;
    }
  }

  lemma EndCloses(w: Web, x: GatewayId, y: GatewayId)
    requires WebOk(w) && x in w.net.nodes
    ensures var g, g' := w.net.nodes[x], EndClosed(w, x, y);
      && g'.links.Keys == g.links.Keys - {y} && Connected(g') && Gone(g', y)
      && (forall t, k :: k != y ==> Held(g', t, k) == Held(g, t, k))
  {
    assert UpToDate(w.net, x) && NeighboursTracked(HubAt(w, x));
    NeighbourGoes(w.net.nodes[x], ListsOf(w, x), y);
  }

  lemma EndListsInStep(w: Web, x: GatewayId, y: GatewayId)
    requires WebOk(w) && x in w.net.nodes
    ensures NeighboursTracked(Hub(EndClosed(w, x, y), map[], ListsOf(w, x) - {y}))
  {
    assert UpToDate(w.net, x) && NeighboursTracked(HubAt(w, x));
    ListsStayInStep(w.net.nodes[x], ListsOf(w, x), y);
  }

  // ----- both ends -----

  lemma EndUpToDate(n: Net, a: GatewayId, b: GatewayId, ga: Gateway, gb: Gateway)
    requires a in n.nodes && a != b && UpToDate(n, a)
    requires ga.links.Keys == n.nodes[a].links.Keys - {b} && Connected(ga)
    ensures UpToDate(Parted(n, a, b, ga, gb), a)
  {
    assert forall k :: k in ga.links <==> k in ga.links.Keys;
  }

  lemma SameParting(n: Net, a: GatewayId, b: GatewayId, ga: Gateway, gb: Gateway)
    requires a != b
    ensures Parted(n, a, b, ga, gb) == Parted(n, b, a, gb, ga)
  {
    assert {(a, b), (b, a)} == {(b, a), (a, b)};
    assert n.nodes[a := ga][b := gb] == n.nodes[b := gb][a := ga];
  }

  lemma OtherUpToDate(n: Net, a: GatewayId, b: GatewayId, ga: Gateway, gb: Gateway, x: GatewayId)
    requires x in n.nodes && x != a && x != b && UpToDate(n, x)
    ensures UpToDate(Parted(n, a, b, ga, gb), x)
  {
  }

  lemma PartedSymmetric(n: Net, a: GatewayId, b: GatewayId, ga: Gateway, gb: Gateway)
    requires Symmetric(n)
    ensures Symmetric(Parted(n, a, b, ga, gb))
  {
  }

  lemma PartedWellFormed(n: Net, a: GatewayId, b: GatewayId, ga: Gateway, gb: Gateway)
    requires WellFormed(n) && a in n.nodes && b in n.nodes && a != b
    requires ga.links.Keys == n.nodes[a].links.Keys - {b} && Connected(ga)
    requires gb.links.Keys == n.nodes[b].links.Keys - {a} && Connected(gb)
    ensures WellFormed(Parted(n, a, b, ga, gb))
  {
    var n' := Parted(n, a, b, ga, gb);
    PartedSymmetric(n, a, b, ga, gb);
    EndUpToDate(n, a, b, ga, gb);
    SameParting(n, a, b, ga, gb);
    EndUpToDate(n, b, a, gb, ga);
    forall x | x in n'.nodes ensures UpToDate(n', x) {
      if x != a && x != b { OtherUpToDate(n, a, b, ga, gb, x); }
    }
  }

  lemma CutKeepsWellFormed(w: Web, a: GatewayId, b: GatewayId)
    requires WebOk(w) && WebEnabled(w, Cut(a, b))
    ensures WellFormed(NetAfterCut(w, a, b))
  {
    EndCloses(w, a, b);
    EndCloses(w, b, a);
    PartedWellFormed(w.net, a, b, EndClosed(w, a, b), EndClosed(w, b, a));
  }

  lemma CutKeepsLists(w: Web, a: GatewayId, b: GatewayId)
    requires WebOk(w) && WebEnabled(w, Cut(a, b))
    ensures ListsInStep(WebApply(w, Cut(a, b)))
  {
    forall x | x in w.net.nodes ensures NeighboursTracked(HubAt(WebApply(w, Cut(a, b)), x)) {
      HubAfterCut(w, a, b, x);
    }
  }

  lemma HubAfterCut(w: Web, a: GatewayId, b: GatewayId, x: GatewayId)
    requires WebOk(w) && WebEnabled(w, Cut(a, b)) && x in w.net.nodes
    ensures NeighboursTracked(HubAt(WebApply(w, Cut(a, b)), x))
  {
    HubIs(w, a, b, x);
    if x == a { EndListsInStep(w, a, b); } else if x == b { EndListsInStep(w, b, a); }
  }

  lemma HubIs(w: Web, a: GatewayId, b: GatewayId, x: GatewayId)
    requires WebEnabled(w, Cut(a, b)) && x in w.net.nodes
    ensures HubAt(WebApply(w, Cut(a, b)), x) ==
            if x == a then Hub(EndClosed(w, a, b), map[], ListsOf(w, a) - {b})
            else if x == b then Hub(EndClosed(w, b, a), map[], ListsOf(w, b) - {a})
            else HubAt(w, x)
  {
  }

  lemma StepKeepsOk(w: Web, s: WebStep)
    requires WebOk(w) && WebEnabled(w, s)
    ensures WebOk(WebApply(w, s))
  {
    match s
    case Go(step) => GoKeepsOk(w, step);
    case Cut(a, b) =>
      CutKeepsWellFormed(w, a, b);
      CutKeepsLists(w, a, b);
  }

  // ----- what the destructors tell -----

  ghost function Unsubscribes(topics: seq<string>): seq<Control>
  {
    if topics == [] then [] else [Unsubscribe(topics[0])] + Unsubscribes(topics[1..])
  }

  ghost function Unregisters(topics: seq<string>): seq<Control>
  {
    if topics == [] then [] else [UnregisterPull(topics[0])] + Unregisters(topics[1..])
  }

  lemma {:induction false} SubsQueued(g: Gateway, topics: seq<string>, id: GatewayId, k: GatewayId)
    requires k in g.links && k != id
    ensures var g' := WithdrawSubs(g, topics, id);
      k in g'.links && g'.links[k].control == g.links[k].control + Unsubscribes(topics)
    decreases topics
  {
    if topics == [] {
      assert g.links[k].control + [] == g.links[k].control;
    } else {
      SubsQueued(ReceiveControl(g, id, Unsubscribe(topics[0])), topics[1..], id, k);
      Regroup(g.links[k].control, [Unsubscribe(topics[0])], Unsubscribes(topics[1..]));
    }
  }

  lemma {:induction false} PullsQueued(g: Gateway, topics: seq<string>, id: GatewayId, k: GatewayId)
    requires k in g.links && k != id
    ensures var g' := WithdrawPulls(g, topics, id);
      k in g'.links && g'.links[k].control == g.links[k].control + Unregisters(topics)
    decreases topics
  {
    if topics == [] {
      assert g.links[k].control + [] == g.links[k].control;
    } else {
      PullsQueued(ReceiveControl(g, id, UnregisterPull(topics[0])), topics[1..], id, k);
      Regroup(g.links[k].control, [UnregisterPull(topics[0])], Unregisters(topics[1..]));
    }
  }

  lemma ClosingQueued(g: Gateway, n: Neighbour, id: GatewayId, k: GatewayId)
    requires k in g.links && k != id
    ensures var g' := CloseNeighbour(g, n, id);
      && k in g'.links
      && g'.links[k].control == g.links[k].control + (Unsubscribes(n.topics) + Unregisters(n.pullTopics))
  {
    SubsQueued(g, n.topics, id, k);
    PullsQueued(WithdrawSubs(g, n.topics, id), n.pullTopics, id, k);
    Regroup(g.links[k].control, Unsubscribes(n.topics), Unregisters(n.pullTopics));
  }

  ghost predicate OnlyWithdrawals(s: seq<Control>)
  {
    forall c :: c in s ==> !c.Subscribe?
  }

  lemma {:induction false} WithdrawalsOnly(topics: seq<string>, pullTopics: seq<string>)
    ensures OnlyWithdrawals(Unsubscribes(topics)) && OnlyWithdrawals(Unregisters(pullTopics))
    decreases |topics| + |pullTopics|
  {
    if topics != [] { WithdrawalsOnly(topics[1..], pullTopics); }
    if pullTopics != [] { WithdrawalsOnly(topics, pullTopics[1..]); }
  }

  /** Where only withdrawals follow, it is enough that the count is not negative at the end. */
  lemma {:induction false} NeverNegativeFalling(held: int, s: seq<Control>, v: seq<Control>, t: string)
    requires NeverNegative(held, s, t) && OnlyWithdrawals(v) && held + Flow(s + v, t) >= 0
    ensures NeverNegative(held, s + v, t)
    decreases |s| + |v|
  {
    if s != [] {
      assert (s + v)[1..] == s[1..] + v;
      NeverNegativeFalling(held + Delta(s[0], t), s[1..], v, t);
    } else if v != [] {
      assert s + v == v && [] + v[1..] == v[1..] && v[0] in v;
      FlowFalls(v[1..], t);
      NeverNegativeFalling(held + Delta(v[0], t), [], v[1..], t);
    } else {
      assert s + v == [];
    }
  }

  lemma {:induction false} FlowFalls(v: seq<Control>, t: string)
    requires OnlyWithdrawals(v)
    ensures Flow(v, t) <= 0
  {
    if v != [] {
      assert v[0] in v;
      FlowFalls(v[1..], t);
    }
  }

  // ----- the links that remain -----

  /** The link to `k` stays balanced exactly if as many subscriptions are listed as are held. */
  lemma ClosingBalancesIff(g: Gateway, n: Neighbour, id: GatewayId, gk: Gateway, x: GatewayId, k: GatewayId, t: string)
    requires TracksNeighbour(g, n, id) && k in g.links && k != id && Balanced(g, gk, x, k, t)
    ensures Balanced(CloseNeighbour(g, n, id), gk, x, k, t) <==> Count(n.topics, Is(t)) == Held(g, t, id)
  {
    var g', v := CloseNeighbour(g, n, id), Unsubscribes(n.topics) + Unregisters(n.pullTopics);
    CloseTells(g, n, id, k, t);
    ClosingQueued(g, n, id, k);
    WithdrawalsOnly(n.topics, n.pullTopics);
    if Count(n.topics, Is(t)) == Held(g, t, id) {
      NeverNegativeFalling(Held(gk, t, x), g.links[k].control, v, t);
    }
  }

  /** The list has exactly the subscriptions that are held: none has been withdrawn. */
  ghost predicate NothingDropped(g: Gateway, lists: map<GatewayId, Neighbour>, y: GatewayId)
  {
    forall t :: Count(Listed(lists, y).topics, Is(t)) == Held(g, t, y)
  }

  /** Nobody is left to be told, or what is told is right. */
  ghost predicate ClosesCleanly(g: Gateway, lists: map<GatewayId, Neighbour>, y: GatewayId)
  {
    y in g.links ==> g.links.Keys == {y} || NothingDropped(g, lists, y)
  }

  /** The links over which `x` tells others than `y` what it wants are balanced. */
  ghost predicate BalancedToOthers(g: Gateway, x: GatewayId, y: GatewayId, nodes: map<GatewayId, Gateway>)
  {
    forall k, t :: k in nodes && k != x && k != y ==> Balanced(g, nodes[k], x, k, t)
  }

  lemma LinkBalancesIff(g: Gateway, lists: map<GatewayId, Neighbour>, x: GatewayId, y: GatewayId,
                        gk: Gateway, k: GatewayId, t: string)
    requires Connected(g) && NeighboursTracked(Hub(g, map[], lists)) && k != y && Balanced(g, gk, x, k, t)
    ensures Balanced(WithoutNeighbour(g, lists, y), gk, x, k, t) <==>
            (y in g.links && k in g.links ==> Count(Listed(lists, y).topics, Is(t)) == Held(g, t, y))
  {
    var u := Hub(g, map[], lists);
    if y in g.links && k in g.links {
      assert y in g.links.Keys && y in u.neighbours && TracksNeighbour(g, u.neighbours[y], y);
      ClosingBalancesIff(g, lists[y], y, gk, x, k, t);
    } else {
      NeighbourGoes(g, lists, y);
      assert k in WithoutNeighbour(g, lists, y).links.Keys <==> k in g.links.Keys;
    }
  }

  /** They stay balanced exactly if the handler for `y` closes cleanly. */
  lemma OthersBalancedIff(g: Gateway, lists: map<GatewayId, Neighbour>, x: GatewayId, y: GatewayId,
                          nodes: map<GatewayId, Gateway>)
    requires Connected(g) && NeighboursTracked(Hub(g, map[], lists)) && BalancedToOthers(g, x, y, nodes)
    requires forall k :: k in g.links ==> k in nodes && k != x
    ensures BalancedToOthers(WithoutNeighbour(g, lists, y), x, y, nodes) <==> ClosesCleanly(g, lists, y)
  {
    if ClosesCleanly(g, lists, y) {
      forall k, t | k in nodes && k != x && k != y ensures Balanced(WithoutNeighbour(g, lists, y), nodes[k], x, k, t) {
        LinkBalancesIff(g, lists, x, y, nodes[k], k, t);
        assert k in g.links ==> k in g.links.Keys;
      }
    } else {
      UncleanUnbalances(g, lists, x, y, nodes);
    }
  }

  lemma UncleanUnbalances(g: Gateway, lists: map<GatewayId, Neighbour>, x: GatewayId, y: GatewayId,
                          nodes: map<GatewayId, Gateway>)
    requires Connected(g) && NeighboursTracked(Hub(g, map[], lists)) && BalancedToOthers(g, x, y, nodes)
    requires forall k :: k in g.links ==> k in nodes && k != x
    requires !ClosesCleanly(g, lists, y)
    ensures !BalancedToOthers(WithoutNeighbour(g, lists, y), x, y, nodes)
  {
    var k :| k in g.links.Keys && k != y;
    var t :| Count(Listed(lists, y).topics, Is(t)) != Held(g, t, y);
    assert k in nodes && Balanced(g, nodes[k], x, k, t);
    LinkBalancesIff(g, lists, x, y, nodes[k], k, t);
  }

  /** New tables at the end of a connection that goes: nothing is held for the other end, and all else as before. */
  ghost predicate EndOf(g: Gateway, g': Gateway, y: GatewayId)
  {
    && g'.links.Keys == g.links.Keys - {y}
    && (forall t :: Held(g', t, y) == 0)
    && (forall t, k :: k != y ==> Held(g', t, k) == Held(g, t, k))
  }

  lemma PartedBalances(n: Net, a: GatewayId, b: GatewayId, ga: Gateway, gb: Gateway, x: GatewayId, y: GatewayId,
                       t: string)
    requires a in n.nodes && b in n.nodes && a != b && x in n.nodes && y in n.nodes && x != y
    requires EndOf(n.nodes[a], ga, b) && EndOf(n.nodes[b], gb, a) && Balanced(n.nodes[y], n.nodes[x], y, x, t)
    requires BalancedToOthers(ga, a, b, n.nodes) && BalancedToOthers(gb, b, a, n.nodes)
    ensures var nodes := Parted(n, a, b, ga, gb).nodes; Balanced(nodes[y], nodes[x], y, x, t)
  {
    if y == a {
      assert x in ga.links.Keys <==> x in n.nodes[a].links.Keys && x != b;
    } else if y == b {
      assert x in gb.links.Keys <==> x in n.nodes[b].links.Keys && x != a;
    }
  }

  lemma PartedConservesIff(n: Net, a: GatewayId, b: GatewayId, ga: Gateway, gb: Gateway)
    requires Conserved(n) && a in n.nodes && b in n.nodes && a != b
    requires EndOf(n.nodes[a], ga, b) && EndOf(n.nodes[b], gb, a)
    ensures Conserved(Parted(n, a, b, ga, gb)) <==>
            BalancedToOthers(ga, a, b, n.nodes) && BalancedToOthers(gb, b, a, n.nodes)
  {
    var n' := Parted(n, a, b, ga, gb);
    if Conserved(n') {
      forall k, t | k in n.nodes && k != a && k != b ensures Balanced(ga, n.nodes[k], a, k, t) {
        assert Balanced(n'.nodes[a], n'.nodes[k], a, k, t);
      }
      forall k, t | k in n.nodes && k != a && k != b ensures Balanced(gb, n.nodes[k], b, k, t) {
        assert Balanced(n'.nodes[b], n'.nodes[k], b, k, t);
      }
    }
    if BalancedToOthers(ga, a, b, n.nodes) && BalancedToOthers(gb, b, a, n.nodes) {
      forall x, y, t | x in n'.nodes && y in n'.nodes && x != y ensures Balanced(n'.nodes[y], n'.nodes[x], y, x, t) {
        assert Balanced(n.nodes[y], n.nodes[x], y, x, t);
        PartedBalances(n, a, b, ga, gb, x, y, t);
      }
    }
  }

  ghost predicate CleanEnd(w: Web, x: GatewayId, y: GatewayId)
    requires x in w.net.nodes
  {
    ClosesCleanly(w.net.nodes[x], ListsOf(w, x), y)
  }

  lemma EndIs(w: Web, x: GatewayId, y: GatewayId)
    requires WebOk(w) && x in w.net.nodes
    ensures EndOf(w.net.nodes[x], EndClosed(w, x, y), y)
  {
    EndCloses(w, x, y);
    forall t ensures Held(EndClosed(w, x, y), t, y) == 0 { HeldNothing(EndClosed(w, x, y), y, t); }
  }

  lemma EndConservesIff(w: Web, x: GatewayId, y: GatewayId)
    requires WebOk(w) && Conserved(w.net) && x in w.net.nodes
    ensures BalancedToOthers(EndClosed(w, x, y), x, y, w.net.nodes) <==> CleanEnd(w, x, y)
  {
    var g := w.net.nodes[x];
    assert UpToDate(w.net, x) && NeighboursTracked(HubAt(w, x));
    forall k | k in g.links ensures k in w.net.nodes && k != x { assert (x, k) in w.net.conns; }
    assert BalancedToOthers(g, x, y, w.net.nodes);
    OthersBalancedIff(g, ListsOf(w, x), x, y, w.net.nodes);
  }

  /** All links of the network stay balanced exactly if both ends of the cut are clean. */
  lemma CutConservesIff(w: Web, a: GatewayId, b: GatewayId)
    requires WebOk(w) && Conserved(w.net) && WebEnabled(w, Cut(a, b))
    ensures Conserved(NetAfterCut(w, a, b)) <==> CleanEnd(w, a, b) && CleanEnd(w, b, a)
  {
    EndConservesIff(w, a, b);
    EndConservesIff(w, b, a);
    EndIs(w, a, b);
    EndIs(w, b, a);
    PartedConservesIff(w.net, a, b, EndClosed(w, a, b), EndClosed(w, b, a));
  }

  lemma HeldNothing(g: Gateway, id: GatewayId, t: string)
    requires Gone(g, id)
    ensures Held(g, t, id) == 0
  {
    CountPositive(g.subs, IsFrom(t, id));
  }

  // ----- runs -----

  ghost predicate CleanStep(w: Web, s: WebStep)
    requires WebEnabled(w, s)
  {
    s.Cut? ==> CleanEnd(w, s.a, s.b) && CleanEnd(w, s.b, s.a)
  }

  lemma StepConservesIff(w: Web, s: WebStep)
    requires WebOk(w) && Conserved(w.net) && WebEnabled(w, s)
    ensures Conserved(WebApply(w, s).net) <==> CleanStep(w, s)
  {
    match s
    case Go(step) => StepKeepsGood(w.net, step);
    case Cut(a, b) => CutConservesIff(w, a, b);
  }

  ghost predicate AllClean(w: Web, run: seq<WebStep>, w': Web)
    requires WebRuns(w, run, w')
    decreases run
  {
    run == [] || (CleanStep(w, run[0]) && AllClean(WebApply(w, run[0]), run[1..], w'))
  }

  /** Subscriptions are conserved in every state of the run. */
  ghost predicate ConservedThroughout(w: Web, run: seq<WebStep>, w': Web)
    requires WebRuns(w, run, w')
    decreases run
  {
    Conserved(w.net) && (run == [] || ConservedThroughout(WebApply(w, run[0]), run[1..], w'))
  }

  lemma {:induction false} RunConservesIff(w: Web, run: seq<WebStep>, w': Web)
    requires WebOk(w) && Conserved(w.net) && WebRuns(w, run, w')
    ensures ConservedThroughout(w, run, w') <==> AllClean(w, run, w')
    decreases run
  {
    if run != [] {
      StepKeepsOk(w, run[0]);
      StepConservesIff(w, run[0]);
      if CleanStep(w, run[0]) { RunConservesIff(WebApply(w, run[0]), run[1..], w'); }
    }
  }

  /**
   Over every run of the network, with connections made and broken at any time: subscriptions
   are conserved on all links in all states if and only if at every cut, at either end that has
   other neighbours to tell, nothing has been dropped that the other end had subscribed to.
   */
  lemma SubscriptionsConservedIff(w0: Web, run: seq<WebStep>, w: Web)
    requires WebInitial(w0) && WebRuns(w0, run, w)
    ensures ConservedThroughout(w0, run, w) <==> AllClean(w0, run, w)
  {
    InitialOk(w0);
    RunConservesIff(w0, run, w);
  }

  // ----- what has been dropped -----

  /** How many subscriptions to `t` that `x` held for `y` the run has withdrawn. */
  ghost function DroppedIn(w: Web, run: seq<WebStep>, w': Web, x: GatewayId, y: GatewayId, t: string): nat
    requires WebRuns(w, run, w')
    decreases run
  {
    if run == [] then 0
    else (if Drops(w, run[0], x, y, t) then 1 else 0) + DroppedIn(WebApply(w, run[0]), run[1..], w', x, y, t)
  }

  /** The step delivers to `x` the withdrawal of one of these subscriptions. */
  predicate Delivers(w: Web, s: WebStep, x: GatewayId, y: GatewayId, t: string)
    requires WebEnabled(w, s)
  {
    s == Go(DeliverControl(y, x)) && w.net.nodes[y].links[x].control[0] == Unsubscribe(t)
  }

  ghost predicate Drops(w: Web, s: WebStep, x: GatewayId, y: GatewayId, t: string)
    requires WebEnabled(w, s)
  {
    Delivers(w, s, x, y, t) && Held(w.net.nodes[x], t, y) > 0
  }

  predicate Severs(s: WebStep, x: GatewayId, y: GatewayId)
  {
    s == Cut(x, y) || s == Cut(y, x)
  }

  /** How far the list exceeds what is held. */
  ghost function ExcessOf(g: Gateway, lists: map<GatewayId, Neighbour>, y: GatewayId, t: string): int
  {
    Count(Listed(lists, y).topics, Is(t)) - Held(g, t, y)
  }

  ghost function Excess(w: Web, x: GatewayId, y: GatewayId, t: string): int
    requires x in w.net.nodes
  {
    ExcessOf(w.net.nodes[x], ListsOf(w, x), y, t)
  }

  lemma ListedIfLinked(w: Web, x: GatewayId, k: GatewayId)
    requires WebOk(w) && x in w.net.nodes
    ensures k in w.net.nodes[x].links <==> k in ListsOf(w, x)
  {
    assert NeighboursTracked(HubAt(w, x));
    assert k in w.net.nodes[x].links.Keys <==> k in ListsOf(w, x).Keys;
  }

  lemma EndHolds(w: Web, x: GatewayId, other: GatewayId, y: GatewayId, t: string)
    requires WebOk(w) && x in w.net.nodes && y != other
    ensures Held(EndClosed(w, x, other), t, y) == Held(w.net.nodes[x], t, y)
    ensures y in w.net.nodes[x].links ==> y in EndClosed(w, x, other).links
  {
    EndCloses(w, x, other);
    assert y in w.net.nodes[x].links ==> y in EndClosed(w, x, other).links.Keys;
  }

  lemma ToldListExcess(g: Gateway, lists: map<GatewayId, Neighbour>, from: GatewayId, c: Control, y: GatewayId,
                       t: string)
    requires from in lists && y in lists
    ensures ExcessOf(ReceiveControl(g, from, c), lists[from := NeighbourAfterControl(g, lists[from], from, c)], y, t) ==
            ExcessOf(g, lists, y, t) + if from == y && c == Unsubscribe(t) && Held(g, t, y) > 0 then 1 else 0
  {
    ToldSurplus(Hub(g, map[], lists), from, c, y, t);
  }

  lemma ToldState(w: Web, from: GatewayId, x: GatewayId)
    requires Enabled(w.net, DeliverControl(from, x))
    ensures var w', c := WebApply(w, Go(DeliverControl(from, x))), w.net.nodes[from].links[x].control[0];
      && x in w'.net.nodes && w'.net.nodes[x] == ReceiveControl(w.net.nodes[x], from, c)
      && ListsOf(w', x) ==
         ListsOf(w, x)[from := NeighbourAfterControl(w.net.nodes[x], Listed(ListsOf(w, x), from), from, c)]
  {
  }

  lemma ToldExcess(w: Web, from: GatewayId, x: GatewayId, y: GatewayId, t: string)
    requires Enabled(w.net, DeliverControl(from, x)) && from in ListsOf(w, x) && y in ListsOf(w, x)
    ensures x in WebApply(w, Go(DeliverControl(from, x))).net.nodes
    ensures Excess(WebApply(w, Go(DeliverControl(from, x))), x, y, t) ==
            Excess(w, x, y, t) + if Drops(w, Go(DeliverControl(from, x)), x, y, t) then 1 else 0
  {
    ToldState(w, from, x);
    ToldListExcess(w.net.nodes[x], ListsOf(w, x), from, w.net.nodes[from].links[x].control[0], y, t);
  }

  lemma CutExcess(w: Web, a: GatewayId, b: GatewayId, x: GatewayId, y: GatewayId, t: string)
    requires WebEnabled(w, Cut(a, b)) && x in w.net.nodes && !Severs(Cut(a, b), x, y)
    requires x == a ==> Held(EndClosed(w, a, b), t, y) == Held(w.net.nodes[a], t, y)
    requires x == b ==> Held(EndClosed(w, b, a), t, y) == Held(w.net.nodes[b], t, y)
    ensures x in WebApply(w, Cut(a, b)).net.nodes
    ensures Excess(WebApply(w, Cut(a, b)), x, y, t) == Excess(w, x, y, t)
  {
    HubIs(w, a, b, x);
  }

  /** Every other step leaves what is held for `y` and what is listed of it alone. */
  lemma OtherExcess(w: Web, s: Step, x: GatewayId, y: GatewayId, t: string)
    requires Enabled(w.net, s) && x in w.net.nodes
    requires s.DeliverControl? ==> s.to != x
    requires s.Associate? && s.to == x ==> s.from != y
    ensures x in Apply(w.net, s).nodes && Excess(WebApply(w, Go(s)), x, y, t) == Excess(w, x, y, t)
  {
    if x !in Receiver(s) {
      OthersKeepNeighbours(w.net, s, x);
      OthersKeepLists(w, s, x);
    } else if s.DeliverData? {
      DataRoutes(w.net.nodes[x], s.from, w.net.nodes[s.from].links[x].data[s.i]);
    }
  }

  lemma NotGreetedAgain(w: Web, s: Step, x: GatewayId, y: GatewayId)
    requires WebOk(w) && Enabled(w.net, s) && x in w.net.nodes && y in w.net.nodes[x].links
    requires s.Associate? && s.to == x
    ensures s.from != y
  {
    assert UpToDate(w.net, x);
  }

  lemma SenderListed(w: Web, from: GatewayId, x: GatewayId)
    requires WebOk(w) && Enabled(w.net, DeliverControl(from, x))
    ensures from in ListsOf(w, x)
  {
    LinkedBack(w.net, from, x);
    ListedIfLinked(w, x, from);
  }

  lemma StepExcess(w: Web, s: WebStep, x: GatewayId, y: GatewayId, t: string)
    requires WebOk(w) && WebEnabled(w, s) && x in w.net.nodes && y in w.net.nodes[x].links && !Severs(s, x, y)
    ensures x in WebApply(w, s).net.nodes
    ensures Excess(WebApply(w, s), x, y, t) == Excess(w, x, y, t) + if Drops(w, s, x, y, t) then 1 else 0
  {
    match s
    case Go(step) =>
      if step.DeliverControl? && step.to == x {
        ListedIfLinked(w, x, y);
        SenderListed(w, step.from, x);
        ToldExcess(w, step.from, x, y, t);
      } else {
        if step.Associate? && step.to == x { NotGreetedAgain(w, step, x, y); }
        OtherExcess(w, step, x, y, t);
      }
    case Cut(a, b) =>
      if x == a { EndHolds(w, a, b, y, t); } else if x == b { EndHolds(w, b, a, y, t); }
      CutExcess(w, a, b, x, y, t);
  }

  lemma StepKeepsLink(w: Web, s: WebStep, x: GatewayId, y: GatewayId)
    requires WebOk(w) && WebEnabled(w, s) && x in w.net.nodes && y in w.net.nodes[x].links && !Severs(s, x, y)
    ensures x in WebApply(w, s).net.nodes && y in WebApply(w, s).net.nodes[x].links
  {
    match s
    case Go(step) => GoKeepsLink(w.net, step, x, y);
    case Cut(a, b) =>
      HubIs(w, a, b, x);
      if x == a { EndHolds(w, a, b, y, ""); } else if x == b { EndHolds(w, b, a, y, ""); }
  }

  lemma GoKeepsLink(n: Net, s: Step, x: GatewayId, y: GatewayId)
    requires Enabled(n, s) && x in n.nodes && y in n.nodes[x].links
    ensures x in Apply(n, s).nodes && y in Apply(n, s).nodes[x].links
  {
    match s
    case Perform(at, step) =>
      ActKeepsNeighbours(n.nodes[at], step);
      assert y in n.nodes[x].links.Keys;
    case Connect(_, _) =>
    case Associate(_, _) =>
    case DeliverControl(from, to) => ControlKeepsLinks(n.nodes[to], from, n.nodes[from].links[to].control[0]);
    case DeliverData(from, to, i) => DataKeepsLinks(n.nodes[to], from, n.nodes[from].links[to].data[i]);
  }

  lemma {:induction false} RunExcess(w: Web, run: seq<WebStep>, w': Web, x: GatewayId, y: GatewayId, t: string)
    requires WebOk(w) && WebRuns(w, run, w') && x in w.net.nodes && y in w.net.nodes[x].links
    requires forall s :: s in run ==> !Severs(s, x, y)
    ensures x in w'.net.nodes && Excess(w', x, y, t) == Excess(w, x, y, t) + DroppedIn(w, run, w', x, y, t)
    decreases run
  {
    if run != [] {
      assert run[0] in run && forall s :: s in run[1..] ==> s in run;
      StepKeepsOk(w, run[0]);
      StepExcess(w, run[0], x, y, t);
      StepKeepsLink(w, run[0], x, y);
      RunExcess(WebApply(w, run[0]), run[1..], w', x, y, t);
    }
  }

  /**
   As long as the connection is not cut: the handler of `x` for `y` closes as if nothing had
   been dropped exactly if since the association no subscription of `y` has been withdrawn.
   */
  lemma NothingDroppedIff(w: Web, x: GatewayId, y: GatewayId, w1: Web, run: seq<WebStep>, w': Web)
    requires WebOk(w) && WebEnabled(w, Go(Associate(y, x))) && w1 == WebApply(w, Go(Associate(y, x)))
    requires WebRuns(w1, run, w') && forall s :: s in run ==> !Severs(s, x, y)
    ensures x in w'.net.nodes
    ensures NothingDropped(w'.net.nodes[x], ListsOf(w', x), y) <==> forall t :: DroppedIn(w1, run, w', x, y, t) == 0
  {
    StillThere(w, x, y, w1, run, w');
    forall t ensures ExcessIsDropped(w1, run, w', x, y, t) {
      ExcessSinceAssociation(w, x, y, w1, run, w', t);
    }
    DroppedIff(w1, run, w', x, y);
  }

  lemma StillThere(w: Web, x: GatewayId, y: GatewayId, w1: Web, run: seq<WebStep>, w': Web)
    requires WebOk(w) && WebEnabled(w, Go(Associate(y, x))) && w1 == WebApply(w, Go(Associate(y, x)))
    requires WebRuns(w1, run, w') && forall s :: s in run ==> !Severs(s, x, y)
    ensures x in w'.net.nodes
  {
    ExcessSinceAssociation(w, x, y, w1, run, w', "");
  }

  ghost predicate ExcessIsDropped(w1: Web, run: seq<WebStep>, w': Web, x: GatewayId, y: GatewayId, t: string)
    requires WebRuns(w1, run, w') && x in w'.net.nodes
  {
    Excess(w', x, y, t) == DroppedIn(w1, run, w', x, y, t)
  }

  lemma DroppedIff(w1: Web, run: seq<WebStep>, w': Web, x: GatewayId, y: GatewayId)
    requires WebRuns(w1, run, w') && x in w'.net.nodes && forall t :: ExcessIsDropped(w1, run, w', x, y, t)
    ensures NothingDropped(w'.net.nodes[x], ListsOf(w', x), y) <==> forall t :: DroppedIn(w1, run, w', x, y, t) == 0
  {
    var g, lists := w'.net.nodes[x], ListsOf(w', x);
    NoExcessIff(g, lists, y);
    if NothingDropped(g, lists, y) {
      forall t ensures DroppedIn(w1, run, w', x, y, t) == 0 {
        assert ExcessIsDropped(w1, run, w', x, y, t) && ExcessOf(g, lists, y, t) == 0;
      }
    } else {
      var t :| ExcessOf(g, lists, y, t) != 0;
      assert ExcessIsDropped(w1, run, w', x, y, t);
      assert DroppedIn(w1, run, w', x, y, t) != 0;
    }
  }

  lemma NoExcessIff(g: Gateway, lists: map<GatewayId, Neighbour>, y: GatewayId)
    ensures NothingDropped(g, lists, y) <==> forall t :: ExcessOf(g, lists, y, t) == 0
  {
    if forall t :: ExcessOf(g, lists, y, t) == 0 {
      forall t ensures Count(Listed(lists, y).topics, Is(t)) == Held(g, t, y) { assert ExcessOf(g, lists, y, t) == 0; }
    }
  }

  lemma ExcessSinceAssociation(w: Web, x: GatewayId, y: GatewayId, w1: Web, run: seq<WebStep>, w': Web, t: string)
    requires WebOk(w) && WebEnabled(w, Go(Associate(y, x))) && w1 == WebApply(w, Go(Associate(y, x)))
    requires WebRuns(w1, run, w') && forall s :: s in run ==> !Severs(s, x, y)
    ensures x in w'.net.nodes && Excess(w', x, y, t) == DroppedIn(w1, run, w', x, y, t)
  {
    StepKeepsOk(w, Go(Associate(y, x)));
    GoneBeforeAssociation(w, x, y, t);
    NewlyListed(w, x, y, t);
    RunExcess(w1, run, w', x, y, t);
  }

  lemma GoneBeforeAssociation(w: Web, x: GatewayId, y: GatewayId, t: string)
    requires WebOk(w) && WebEnabled(w, Go(Associate(y, x)))
    ensures Held(w.net.nodes[x], t, y) == 0
  {
    assert UpToDate(w.net, x) && y !in w.net.nodes[x].links;
    ListedIfLinked(w, x, y);
    assert NeighboursTracked(HubAt(w, x)) && y !in HubAt(w, x).neighbours;
    HeldNothing(w.net.nodes[x], y, t);
  }

  lemma NewlyListed(w: Web, x: GatewayId, y: GatewayId, t: string)
    requires WebEnabled(w, Go(Associate(y, x))) && Held(w.net.nodes[x], t, y) == 0
    ensures var w1 := WebApply(w, Go(Associate(y, x)));
      x in w1.net.nodes && y in w1.net.nodes[x].links && Excess(w1, x, y, t) == 0
  {
  }
}
