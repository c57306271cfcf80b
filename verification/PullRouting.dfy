/**
 Answers to a pull request follow the return ids that the request left behind, and
 reach the plugin that asked exactly once.
 */
module PullRouting {
  import opened Sums
  import opened Topology
  import opened Tables
  import opened Network
  import opened Conservation
  import opened Flooding
  import opened PushDelivery

  /** The plugin `h` of gateway `home` is the only one that uses the id `pid`. */
  datatype Owner = Owner(pid: string, home: GatewayId, h: Handle)

  /** A step of a run in which ids are not shared, the owner stays, and links form the tree `f`. */
  ghost predicate Respects(s: Step, o: Owner, f: Forest)
  {
    match s
    case Perform(at, step) =>
      && (step.DoPull? && step.pid == o.pid ==> at == o.home && step.h == o.h)
      && (step.DoPush? && step.ack && step.device == o.pid ==> at == o.home && step.h == o.h)
      && (step.DoForget? && step.pid == o.pid ==> at == o.home ==> step.h != o.h)
    case Connect(a, b) => f.Edge(a, b)
    case _ => true
  }

  ghost predicate AllRespect(run: seq<Step>, o: Owner, f: Forest)
  {
    forall s :: s in run ==> Respects(s, o, f)
  }

  // ----- the way home -----

  ghost predicate Attached(hop: GatewayId -> GatewayId, home: GatewayId, y: GatewayId)
  {
    y == home || hop(y) != y
  }

  /** Each link between gateways joined to `home` leads there in exactly one direction. */
  ghost predicate Oriented(conns: set<(GatewayId, GatewayId)>, hop: GatewayId -> GatewayId, home: GatewayId)
  {
    && hop(home) == home
    && forall y, k :: (y, k) in conns && y != k && Attached(hop, home, y) ==>
         Attached(hop, home, k) && (hop(y) == k <==> hop(k) != y)
  }

  ghost predicate OnTree(n: Net, f: Forest)
  {
    forall a, b :: (a, b) in n.conns ==> f.Edge(a, b)
  }

  lemma TreeOrients(n: Net, f: Forest, home: GatewayId)
    requires f.Acyclic() && OnTree(n, f)
    ensures Oriented(n.conns, HopTo(f, home), home)
  {
    forall y, k | (y, k) in n.conns && y != k && Attached(HopTo(f, home), home, y)
      ensures Attached(HopTo(f, home), home, k)
      ensures HopTo(f, home)(y) == k <==> HopTo(f, home)(k) != y
    {
      EdgeOrients(f, y, k, home);
    }
  }

  lemma EdgeOrients(f: Forest, y: GatewayId, k: GatewayId, home: GatewayId)
    requires f.Acyclic() && f.Edge(y, k) && y != k && Attached(HopTo(f, home), home, y)
    ensures Attached(HopTo(f, home), home, k)
    ensures HopTo(f, home)(y) == k <==> HopTo(f, home)(k) != y
  {
    f.LinkSplits(y, k, home);
    if k != home {
      assert f.Edge(k, f.Hop(k, home));
      NoSelfEdge(f, k);
    }
  }

  lemma NoSelfEdge(f: Forest, k: GatewayId)
    requires f.Acyclic()
    ensures !f.Edge(k, k)
  {
  }

  // ----- the trace of a request -----

  /** A request with this id has been here. */
  predicate Visited(g: Gateway, pid: string)
  {
    pid in g.plugins || pid in g.routes
  }

  ghost predicate VisitedAt(nodes: map<GatewayId, Gateway>, y: GatewayId, pid: string)
  {
    y in nodes && Visited(nodes[y], pid)
  }

  /** Requests move away from `home`, leaving visited gateways; answers move towards it. */
  ghost predicate DataOk(nodes: map<GatewayId, Gateway>, hop: GatewayId -> GatewayId, o: Owner,
                         y: GatewayId, k: GatewayId, d: Data)
  {
    match d
    case Push(_, _) => true
    case PullRequest(p, _, _) =>
      p == o.pid ==> k != o.home && hop(k) == y && VisitedAt(nodes, y, p) && Attached(hop, o.home, y)
    case PullResponse(p, _) =>
      p == o.pid ==> y != o.home && hop(y) == k && VisitedAt(nodes, k, p)
  }

  ghost predicate RoutedAt(nodes: map<GatewayId, Gateway>, hop: GatewayId -> GatewayId, o: Owner, y: GatewayId)
    requires y in nodes
  {
    var g := nodes[y];
    && (o.pid in g.plugins ==> y == o.home && g.plugins[o.pid] == o.h)
    && (o.pid in g.routes ==>
         && y != o.home && hop(y) != y && g.routes[o.pid] == hop(y)
         && hop(y) in g.links && VisitedAt(nodes, hop(y), o.pid))
    && (forall k, d :: k in g.links && d in g.links[k].data ==> DataOk(nodes, hop, o, y, k, d))
  }

  ghost predicate Routed(nodes: map<GatewayId, Gateway>, hop: GatewayId -> GatewayId, o: Owner)
  {
    forall y :: y in nodes ==> RoutedAt(nodes, hop, o, y)
  }

  /** Replacing the tables of a visited gateway by tables that are still marked as visited. */
  lemma ReplaceRouted(nodes: map<GatewayId, Gateway>, hop: GatewayId -> GatewayId, o: Owner, x: GatewayId, g: Gateway)
    requires Routed(nodes, hop, o) && x in nodes
    requires Visited(nodes[x], o.pid) ==> Visited(g, o.pid)
    requires RoutedAt(nodes[x := g], hop, o, x)
    ensures Routed(nodes[x := g], hop, o)
  {
    forall y | y in nodes && y != x ensures RoutedAt(nodes[x := g], hop, o, y) {
      assert RoutedAt(nodes, hop, o, y);
      forall k, d | k in nodes[y].links && d in nodes[y].links[k].data ensures DataOk(nodes[x := g], hop, o, y, k, d) {
        assert DataOk(nodes, hop, o, y, k, d);
      }
    }
  }

  /** The tables name the owner and the way home. */
  ghost predicate Signposts(nodes: map<GatewayId, Gateway>, hop: GatewayId -> GatewayId, o: Owner, y: GatewayId,
                            g: Gateway)
  {
    && (o.pid in g.plugins ==> y == o.home && g.plugins[o.pid] == o.h)
    && (o.pid in g.routes ==>
         && y != o.home && hop(y) != y && g.routes[o.pid] == hop(y)
         && hop(y) in g.links && VisitedAt(nodes, hop(y), o.pid))
  }

  /** A gateway sends `e` to `targets` and otherwise keeps its queues. */
  lemma SendKeepsRouted(nodes: map<GatewayId, Gateway>, hop: GatewayId -> GatewayId, o: Owner, x: GatewayId, g: Gateway,
                        targets: set<GatewayId>, e: Data)
    requires Routed(nodes, hop, o) && x in nodes
    requires Visited(nodes[x], o.pid) ==> Visited(g, o.pid)
    requires Signposts(nodes, hop, o, x, g)
    requires g.links.Keys == nodes[x].links.Keys
    requires forall k :: k in g.links ==>
      g.links[k].data == nodes[x].links[k].data + (if k in targets then [e] else [])
    requires forall k :: k in targets && k in g.links ==> DataOk(nodes[x := g], hop, o, x, k, e)
    ensures Routed(nodes[x := g], hop, o)
  {
    assert RoutedAt(nodes, hop, o, x);
    forall k, d | k in g.links && d in g.links[k].data ensures DataOk(nodes[x := g], hop, o, x, k, d) {
      assert k in nodes[x].links.Keys;
      if d in nodes[x].links[k].data { assert DataOk(nodes, hop, o, x, k, d); }
    }
    ReplaceRouted(nodes, hop, o, x, g);
  }

  /** No data sent: the queues only lose messages or stay, the marks stay. */
  lemma QuietKeepsRouted(nodes: map<GatewayId, Gateway>, hop: GatewayId -> GatewayId, o: Owner, x: GatewayId,
                         g: Gateway)
    requires Routed(nodes, hop, o) && x in nodes
    requires Visited(nodes[x], o.pid) ==> Visited(g, o.pid)
    requires Signposts(nodes, hop, o, x, g)
    requires forall k, d :: k in g.links && d in g.links[k].data ==> k in nodes[x].links && d in nodes[x].links[k].data
    ensures Routed(nodes[x := g], hop, o)
  {
    assert RoutedAt(nodes, hop, o, x);
    forall k, d | k in g.links && d in g.links[k].data ensures DataOk(nodes[x := g], hop, o, x, k, d) {
      assert DataOk(nodes, hop, o, x, k, d);
    }
    ReplaceRouted(nodes, hop, o, x, g);
  }

  // ----- steps -----

  lemma OtherActKeepsRouted(n: Net, hop: GatewayId -> GatewayId, o: Owner, at: GatewayId, s: LocalStep)
    requires at in n.nodes && Routed(n.nodes, hop, o)
    requires s.DoRegisterData? || s.DoUnregisterData? || s.DoRegisterPull? || s.DoUnregisterPull? ||
             (s.DoForget? && (s.pid == o.pid ==> at == o.home ==> s.h != o.h))
    ensures Routed(n.nodes[at := Act(n.nodes[at], s)], hop, o)
  {
    assert RoutedAt(n.nodes, hop, o, at);
    QuietKeepsRouted(n.nodes, hop, o, at, Act(n.nodes[at], s));
  }

  lemma PushKeepsRouted(n: Net, hop: GatewayId -> GatewayId, o: Owner, at: GatewayId, s: LocalStep)
    requires at in n.nodes && Routed(n.nodes, hop, o) && s.DoPush?
    requires s.ack && s.device == o.pid ==> at == o.home && s.h == o.h
    ensures Routed(n.nodes[at := Act(n.nodes[at], s)], hop, o)
  {
    assert RoutedAt(n.nodes, hop, o, at);
    var targets := if s.scope == Global then NeighboursFor(n.nodes[at].subs, s.topic) else {};
    SendKeepsRouted(n.nodes, hop, o, at, Act(n.nodes[at], s), targets, Push(s.topic, s.body));
  }

  lemma PullKeepsRouted(n: Net, hop: GatewayId -> GatewayId, o: Owner, at: GatewayId, s: LocalStep)
    requires WellFormed(n) && Oriented(n.conns, hop, o.home)
    requires at in n.nodes && Routed(n.nodes, hop, o) && s.DoPull?
    requires s.pid == o.pid ==> at == o.home && s.h == o.h
    ensures Routed(n.nodes[at := Act(n.nodes[at], s)], hop, o)
  {
    assert RoutedAt(n.nodes, hop, o, at) && UpToDate(n, at);
    var g := Act(n.nodes[at], s);
    var targets := if s.scope == Global then PullNeighbours(n.nodes[at].pulls, s.topic) else {};
    forall k | k in targets && k in g.links
      ensures DataOk(n.nodes[at := g], hop, o, at, k, PullRequest(s.pid, s.topic, s.body))
    {
      assert k in n.nodes[at].links.Keys && (at, k) in n.conns;
    }
    SendKeepsRouted(n.nodes, hop, o, at, g, targets, PullRequest(s.pid, s.topic, s.body));
  }

  lemma AnswerKeepsRouted(nodes: map<GatewayId, Gateway>, hop: GatewayId -> GatewayId, o: Owner, at: GatewayId,
                          pid: string, body: string, origin: set<GatewayId>)
    requires at in nodes && Routed(nodes, hop, o)
    ensures Routed(nodes[at := Answer(nodes[at], pid, body, origin)], hop, o)
  {
    assert RoutedAt(nodes, hop, o, at);
    var g := nodes[at];
    var targets := if pid !in g.plugins && pid in g.routes && g.routes[pid] !in origin then {g.routes[pid]} else {};
    SendKeepsRouted(nodes, hop, o, at, Answer(g, pid, body, origin), targets, PullResponse(pid, body));
  }

  /** The two agree on everything that pull requests and answers depend on. */
  ghost predicate SameData(g: Gateway, g': Gateway)
  {
    && g'.plugins == g.plugins && g'.routes == g.routes && g'.delivered == g.delivered
    && g'.links.Keys == g.links.Keys
    && forall k :: k in g.links ==> g'.links[k].data == g.links[k].data
  }

  lemma BroadcastKeepsData(links: map<GatewayId, Link>, except: set<GatewayId>, c: Control)
    ensures var links' := Broadcast(links, except, c);
      links'.Keys == links.Keys && forall k :: k in links ==> links'[k].data == links[k].data
  {}

  lemma TakeControlKeepsData(g: Gateway, k: GatewayId)
    requires k in g.links && g.links[k].control != []
    ensures SameData(g, TakeControl(g, k))
  {}

  lemma ControlKeepsData(g: Gateway, k: GatewayId, c: Control)
    ensures SameData(g, ReceiveControl(g, k, c))
  {
    BroadcastKeepsData(g.links, {k}, c);
    match c
    case Subscribe(_) =>
    case Unsubscribe(_) =>
    case RegisterPull(_) =>
    case UnregisterPull(_) =>
  }

  lemma SameDataKeepsRouted(nodes: map<GatewayId, Gateway>, hop: GatewayId -> GatewayId, o: Owner, x: GatewayId,
                            g: Gateway)
    requires Routed(nodes, hop, o) && x in nodes && SameData(nodes[x], g)
    ensures Routed(nodes[x := g], hop, o)
  {
    assert RoutedAt(nodes, hop, o, x);
    forall k, d | k in g.links && d in g.links[k].data ensures k in nodes[x].links && d in nodes[x].links[k].data {
      assert k in nodes[x].links.Keys;
    }
    QuietKeepsRouted(nodes, hop, o, x, g);
  }

  lemma ControlKeepsRouted(n: Net, hop: GatewayId -> GatewayId, o: Owner, from: GatewayId, to: GatewayId)
    requires Routed(n.nodes, hop, o) && Enabled(n, DeliverControl(from, to))
    ensures Routed(Apply(n, DeliverControl(from, to)).nodes, hop, o)
  {
    var c := n.nodes[from].links[to].control[0];
    TakeControlKeepsData(n.nodes[from], to);
    ControlKeepsData(n.nodes[to], from, c);
    SameDataKeepsRouted(n.nodes, hop, o, from, TakeControl(n.nodes[from], to));
    SameDataKeepsRouted(n.nodes[from := TakeControl(n.nodes[from], to)], hop, o, to,
                        ReceiveControl(n.nodes[to], from, c));
  }

  lemma AssociateKeepsRouted(n: Net, hop: GatewayId -> GatewayId, o: Owner, from: GatewayId, to: GatewayId)
    requires WellFormed(n) && Routed(n.nodes, hop, o) && Enabled(n, Associate(from, to))
    ensures Routed(Apply(n, Associate(from, to)).nodes, hop, o)
  {
    assert RoutedAt(n.nodes, hop, o, to);
    QuietKeepsRouted(n.nodes, hop, o, to, RegisterConnection(n.nodes[to], from));
  }

  /** A request that arrives leaves the way it came as the way home, and goes on away from there. */
  lemma RequestKeepsRouted(nodes: map<GatewayId, Gateway>, conns: set<(GatewayId, GatewayId)>,
                           hop: GatewayId -> GatewayId, o: Owner,
                           from: GatewayId, to: GatewayId, d: Data)
    requires Routed(nodes, hop, o) && Oriented(conns, hop, o.home)
    requires to in nodes && from in nodes && from != to && from in nodes[to].links && d.PullRequest?
    requires forall k :: k in nodes[to].links ==> (to, k) in conns && k != to
    requires DataOk(nodes, hop, o, from, to, d)
    ensures Routed(nodes[to := ReceiveData(nodes[to], from, d)], hop, o)
  {
    assert RoutedAt(nodes, hop, o, to);
    var g := ReceiveData(nodes[to], from, d);
    var targets := PullNeighbours(nodes[to].pulls, d.topic) - {from};
    assert g.links.Keys == nodes[to].links.Keys;
    forall k | k in targets && k in g.links ensures DataOk(nodes[to := g], hop, o, to, k, d) {
      assert (to, k) in conns;
    }
    SendKeepsRouted(nodes, hop, o, to, g, targets, d);
  }

  lemma TakeKeepsRouted(nodes: map<GatewayId, Gateway>, hop: GatewayId -> GatewayId, o: Owner, from: GatewayId,
                        to: GatewayId, i: nat)
    requires Routed(nodes, hop, o) && from in nodes && to in nodes[from].links && i < |nodes[from].links[to].data|
    ensures Routed(nodes[from := TakeData(nodes[from], to, i)], hop, o)
  {
    assert RoutedAt(nodes, hop, o, from);
    QuietKeepsRouted(nodes, hop, o, from, TakeData(nodes[from], to, i));
  }

  lemma PushedOnKeepsRouted(nodes: map<GatewayId, Gateway>, hop: GatewayId -> GatewayId, o: Owner,
                            from: GatewayId, to: GatewayId, d: Data)
    requires Routed(nodes, hop, o) && to in nodes && d.Push?
    ensures Routed(nodes[to := ReceiveData(nodes[to], from, d)], hop, o)
  {
    assert RoutedAt(nodes, hop, o, to);
    SendKeepsRouted(nodes, hop, o, to, ReceiveData(nodes[to], from, d), NeighboursFor(nodes[to].subs, d.topic) - {from},
                    d);
  }

  lemma ArrivalKeepsRouted(nodes: map<GatewayId, Gateway>, conns: set<(GatewayId, GatewayId)>,
                           hop: GatewayId -> GatewayId, o: Owner,
                           from: GatewayId, to: GatewayId, d: Data)
    requires Routed(nodes, hop, o) && Oriented(conns, hop, o.home)
    requires to in nodes && from in nodes && from != to && from in nodes[to].links
    requires forall k :: k in nodes[to].links ==> (to, k) in conns && k != to
    requires DataOk(nodes, hop, o, from, to, d)
    ensures Routed(nodes[to := ReceiveData(nodes[to], from, d)], hop, o)
  {
    match d
    case Push(_, _) => PushedOnKeepsRouted(nodes, hop, o, from, to, d);
    case PullRequest(_, _, _) => RequestKeepsRouted(nodes, conns, hop, o, from, to, d);
    case PullResponse(pid, body) => AnswerKeepsRouted(nodes, hop, o, to, pid, body, {from});
  }

  lemma LinksFrom(n: Net, to: GatewayId)
    requires WellFormed(n) && to in n.nodes
    ensures forall k :: k in n.nodes[to].links ==> (to, k) in n.conns && k != to
  {
    assert UpToDate(n, to);
  }

  lemma StillOk(nodes: map<GatewayId, Gateway>, hop: GatewayId -> GatewayId, o: Owner, from: GatewayId, to: GatewayId,
                i: nat)
    requires Routed(nodes, hop, o) && from in nodes && to in nodes[from].links && i < |nodes[from].links[to].data|
    ensures DataOk(nodes[from := TakeData(nodes[from], to, i)], hop, o, from, to, nodes[from].links[to].data[i])
  {
    assert RoutedAt(nodes, hop, o, from) && DataOk(nodes, hop, o, from, to, nodes[from].links[to].data[i]);
  }

  lemma DataKeepsRouted(n: Net, hop: GatewayId -> GatewayId, o: Owner, from: GatewayId, to: GatewayId, i: nat)
    requires WellFormed(n) && Oriented(n.conns, hop, o.home)
    requires Routed(n.nodes, hop, o) && Enabled(n, DeliverData(from, to, i))
    ensures Routed(Apply(n, DeliverData(from, to, i)).nodes, hop, o)
  {
    TakeKeepsRouted(n.nodes, hop, o, from, to, i);
    StillOk(n.nodes, hop, o, from, to, i);
    LinkedBack(n, from, to);
    LinksFrom(n, to);
    ArrivalKeepsRouted(n.nodes[from := TakeData(n.nodes[from], to, i)], n.conns, hop, o, from, to,
                       n.nodes[from].links[to].data[i]);
  }

  /** What holds in every state of a run that respects the owner and the tree. */
  ghost predicate OnTrack(n: Net, f: Forest, o: Owner)
  {
    && f.Acyclic() && WellFormed(n) && OnTree(n, f)
    && Routed(n.nodes, HopTo(f, o.home), o)
  }

  lemma StepKeepsOnTrack(n: Net, f: Forest, o: Owner, s: Step)
    requires OnTrack(n, f, o) && Respects(s, o, f) && Enabled(n, s)
    ensures OnTrack(Apply(n, s), f, o)
  {
    StepKeepsWellFormed(n, s);
    StepKeepsOnTree(n, f, o, s);
    TreeOrients(n, f, o.home);
    StepKeepsRouted(n, HopTo(f, o.home), f, o, s);
  }

  lemma StepKeepsOnTree(n: Net, f: Forest, o: Owner, s: Step)
    requires OnTree(n, f) && Respects(s, o, f) && Enabled(n, s)
    ensures OnTree(Apply(n, s), f)
  {
  }

  lemma StepKeepsRouted(n: Net, hop: GatewayId -> GatewayId, f: Forest, o: Owner, s: Step)
    requires WellFormed(n) && Oriented(n.conns, hop, o.home) && Routed(n.nodes, hop, o)
    requires Respects(s, o, f) && Enabled(n, s)
    ensures Routed(Apply(n, s).nodes, hop, o)
  {
    match s
    case Perform(at, step) =>
      match step {
        case DoPush(_, _, _, _, _, _) => PushKeepsRouted(n, hop, o, at, step);
        case DoPull(_, _, _, _, _) => PullKeepsRouted(n, hop, o, at, step);
        case DoAnswer(pid, body) => AnswerKeepsRouted(n.nodes, hop, o, at, pid, body, {});
        case _ => OtherActKeepsRouted(n, hop, o, at, step);
      }
    case Connect(a, b) =>
    case Associate(from, to) => AssociateKeepsRouted(n, hop, o, from, to);
    case DeliverControl(from, to) => ControlKeepsRouted(n, hop, o, from, to);
    case DeliverData(from, to, i) => DataKeepsRouted(n, hop, o, from, to, i);
  }

  lemma {:induction false} RunKeepsOnTrack(n: Net, f: Forest, o: Owner, run: seq<Step>, n': Net)
    requires OnTrack(n, f, o) && AllRespect(run, o, f) && Runs(n, run, n')
    ensures OnTrack(n', f, o)
    decreases run
  {
    if run != [] {
      assert run[0] in run && forall s :: s in run[1..] ==> s in run;
      StepKeepsOnTrack(n, f, o, run[0]);
      RunKeepsOnTrack(Apply(n, run[0]), f, o, run[1..], n');
    }
  }

  /** In every run, each gateway that a request has visited points one hop nearer to the plugin that asked. */
  lemma ReturnIdsLeadHome(n0: Net, f: Forest, o: Owner, run: seq<Step>, n: Net, y: GatewayId)
    requires Initial(n0) && f.Acyclic() && AllRespect(run, o, f) && Runs(n0, run, n)
    requires y in n.nodes && Visited(n.nodes[y], o.pid)
    ensures y == o.home ==> o.pid in n.nodes[y].plugins && n.nodes[y].plugins[o.pid] == o.h
    ensures y != o.home ==>
      && o.pid !in n.nodes[y].plugins && f.Joined(y, o.home)
      && n.nodes[y].routes[o.pid] == f.Hop(y, o.home)
      && f.Hop(y, o.home) in n.nodes[y].links && VisitedAt(n.nodes, f.Hop(y, o.home), o.pid)
  {
    RunKeepsOnTrack(n0, f, o, run, n);
    assert RoutedAt(n.nodes, HopTo(f, o.home), o, y);
  }

  // ----- whoever is asked can answer -----

  /** Wherever a request with the owner's id has been handed to a plugin, it has left its mark. */
  ghost predicate Marked(g: Gateway, pid: string)
  {
    forall h, t, b :: g.delivered[Delivery(h, PullRequest(pid, t, b))] > 0 ==> Visited(g, pid)
  }

  lemma IdIsTheOwners(n: Net, f: Forest, o: Owner, at: GatewayId)
    requires OnTrack(n, f, o) && at in n.nodes && o.pid in n.nodes[at].plugins
    ensures at == o.home && n.nodes[at].plugins[o.pid] == o.h
  {
    assert RoutedAt(n.nodes, HopTo(f, o.home), o, at);
  }

  lemma ActStaysVisited(g: Gateway, f: Forest, o: Owner, at: GatewayId, s: LocalStep)
    requires Respects(Perform(at, s), o, f) && Visited(g, o.pid)
    requires o.pid in g.plugins ==> at == o.home && g.plugins[o.pid] == o.h
    ensures Visited(Act(g, s), o.pid)
  {
  }

  lemma ActKeepsMarked(g: Gateway, at: GatewayId, s: LocalStep, pid: string)
    requires Marked(g, pid) && (Visited(g, pid) ==> Visited(Act(g, s), pid))
    ensures Marked(Act(g, s), pid)
  {
    forall h, t, b | Act(g, s).delivered[Delivery(h, PullRequest(pid, t, b))] > 0 ensures Visited(Act(g, s), pid) {
      if !Sends(s, PullRequest(pid, t, b)) { UnrelatedAct(g, s, at, h, PullRequest(pid, t, b)); }
    }
  }

  lemma ReceiveKeepsMarked(g: Gateway, from: GatewayId, e: Data, pid: string)
    requires Marked(g, pid)
    ensures Marked(ReceiveData(g, from, e), pid)
  {
    var g' := ReceiveData(g, from, e);
    forall h, t, b | g'.delivered[Delivery(h, PullRequest(pid, t, b))] > 0 ensures Visited(g', pid) {
      if e != PullRequest(pid, t, b) { UnrelatedData(g, from, e, from, h, PullRequest(pid, t, b)); }
    }
  }

  ghost predicate AllMarked(nodes: map<GatewayId, Gateway>, pid: string)
  {
    forall y :: y in nodes ==> Marked(nodes[y], pid)
  }

  lemma SameDataMarked(g: Gateway, g': Gateway, pid: string)
    requires Marked(g, pid) && SameData(g, g')
    ensures Marked(g', pid)
  {
  }

  lemma StepKeepsMarked(n: Net, f: Forest, o: Owner, s: Step, y: GatewayId)
    requires OnTrack(n, f, o) && Respects(s, o, f) && Enabled(n, s) && AllMarked(n.nodes, o.pid) && y in n.nodes
    ensures y in Apply(n, s).nodes && Marked(Apply(n, s).nodes[y], o.pid)
  {
    assert Marked(n.nodes[y], o.pid);
    if s.Perform? && s.at == y {
      if o.pid in n.nodes[y].plugins { IdIsTheOwners(n, f, o, y); }
      if Visited(n.nodes[y], o.pid) { ActStaysVisited(n.nodes[y], f, o, y, s.step); }
      ActKeepsMarked(n.nodes[y], y, s.step, o.pid);
    } else if s.DeliverControl? || s.DeliverData? || s.Associate? {
      ArrivalKeepsMarked(n, s, y, o.pid);
    }
  }

  lemma ArrivalKeepsMarked(n: Net, s: Step, y: GatewayId, pid: string)
    requires Enabled(n, s) && !s.Perform? && y in n.nodes && Marked(n.nodes[y], pid)
    ensures y in Apply(n, s).nodes && Marked(Apply(n, s).nodes[y], pid)
  {
    if s.DeliverControl? && s.to == y {
      ControlKeepsData(n.nodes[y], s.from, n.nodes[s.from].links[y].control[0]);
      SameDataMarked(n.nodes[y], Apply(n, s).nodes[y], pid);
    } else if s.DeliverData? && s.to == y {
      ReceiveKeepsMarked(n.nodes[y], s.from, n.nodes[s.from].links[y].data[s.i], pid);
    } else {
      SameMarks(n.nodes[y], Apply(n, s).nodes[y], pid);
    }
  }

  lemma SameMarks(g: Gateway, g': Gateway, pid: string)
    requires Marked(g, pid) && g'.delivered == g.delivered && g'.plugins == g.plugins && g'.routes == g.routes
    ensures Marked(g', pid)
  {
  }

  lemma {:induction false} RunKeepsMarked(n: Net, f: Forest, o: Owner, run: seq<Step>, n': Net)
    requires OnTrack(n, f, o) && AllRespect(run, o, f) && Runs(n, run, n') && AllMarked(n.nodes, o.pid)
    ensures AllMarked(n'.nodes, o.pid)
    decreases run
  {
    if run != [] {
      assert run[0] in run && forall s :: s in run[1..] ==> s in run;
      StepKeepsOnTrack(n, f, o, run[0]);
      StepKeepsNodes(n, run[0]);
      forall y | y in n.nodes ensures Marked(Apply(n, run[0]).nodes[y], o.pid) { StepKeepsMarked(n, f, o, run[0], y); }
      RunKeepsMarked(Apply(n, run[0]), f, o, run[1..], n');
    }
  }

  /** In every run, an answer given where a plugin has been handed the request is one that is on its way home. */
  lemma AskedMayAnswer(n0: Net, f: Forest, o: Owner, run: seq<Step>, n: Net, x: GatewayId, h: Handle, t: string,
                       b: string, body: string)
    requires Initial(n0) && f.Acyclic() && AllRespect(run, o, f) && Runs(n0, run, n)
    requires x in n.nodes && n.nodes[x].delivered[Delivery(h, PullRequest(o.pid, t, b))] > 0
    ensures Answers(n, Perform(x, DoAnswer(o.pid, body)), PullResponse(o.pid, body))
    ensures x != o.home ==>
      f.Joined(x, o.home) && o.pid in n.nodes[x].routes && n.nodes[x].routes[o.pid] == f.Hop(x, o.home)
  {
    RunKeepsMarked(n0, f, o, run, n);
    assert Marked(n.nodes[x], o.pid);
    ReturnIdsLeadHome(n0, f, o, run, n, x);
  }

  /** Where the signposts hold, an answer under way is not sent back. */
  lemma NotSentBackFrom(nodes: map<GatewayId, Gateway>, hop: GatewayId -> GatewayId, o: Owner, from: GatewayId,
                        to: GatewayId, d: Data)
    requires Routed(nodes, hop, o) && to in nodes && DataOk(nodes, hop, o, from, to, d)
    requires d.PullResponse? && d.pluginId == o.pid && (hop(from) == to ==> hop(to) != from)
    ensures to == o.home ==> o.pid in nodes[to].plugins && nodes[to].plugins[o.pid] == o.h
    ensures to != o.home ==>
      && o.pid !in nodes[to].plugins && o.pid in nodes[to].routes
      && nodes[to].routes[o.pid] != from && nodes[to].routes[o.pid] in nodes[to].links
  {
    assert RoutedAt(nodes, hop, o, to);
  }

  /** An answer that arrives is delivered or sent on, never back to where it came from. */
  lemma AnswersNeverBounce(n0: Net, f: Forest, o: Owner, run: seq<Step>, n: Net, from: GatewayId, to: GatewayId, i: nat)
    requires Initial(n0) && f.Acyclic() && AllRespect(run, o, f) && Runs(n0, run, n)
    requires Enabled(n, DeliverData(from, to, i))
    requires n.nodes[from].links[to].data[i].PullResponse? && n.nodes[from].links[to].data[i].pluginId == o.pid
    ensures to == o.home ==> o.pid in n.nodes[to].plugins && n.nodes[to].plugins[o.pid] == o.h
    ensures to != o.home ==>
      && o.pid !in n.nodes[to].plugins && o.pid in n.nodes[to].routes
      && n.nodes[to].routes[o.pid] != from && n.nodes[to].routes[o.pid] in n.nodes[to].links
  {
    RunKeepsOnTrack(n0, f, o, run, n);
    TreeOrients(n, f, o.home);
    var hop, d := HopTo(f, o.home), n.nodes[from].links[to].data[i];
    assert RoutedAt(n.nodes, hop, o, from) && DataOk(n.nodes, hop, o, from, to, d);
    LinksFrom(n, from);
    NotSentBackFrom(n.nodes, hop, o, from, to, d);
  }

  // ----- each answer arrives once -----

  /** The step gives the answer `d` at a gateway that the request has visited. */
  ghost predicate Answers(n: Net, s: Step, d: Data)
  {
    && s.Perform? && s.step.DoAnswer? && PullResponse(s.step.pid, s.step.body) == d
    && VisitedAt(n.nodes, s.at, s.step.pid)
  }

  ghost function AnswersGiven(n: Net, run: seq<Step>, n': Net, d: Data): nat
    requires Runs(n, run, n')
    decreases run
  {
    if run == [] then 0
    else (if Answers(n, run[0], d) then 1 else 0) + AnswersGiven(Apply(n, run[0]), run[1..], n', d)
  }

  /** Answers `d` that have reached the owner, and those on the way. */
  ghost function AnswersDue(nodes: map<GatewayId, Gateway>, hop: GatewayId -> GatewayId, o: Owner, d: Data): nat
    requires o.home in nodes
  {
    nodes[o.home].delivered[Delivery(o.h, d)] + UnderWay(nodes, hop, d)
  }

  /** Answers `d` handed to anybody but the owner. */
  ghost predicate NobodyElse(nodes: map<GatewayId, Gateway>, nodes': map<GatewayId, Gateway>, o: Owner, d: Data)
  {
    forall x, h :: x in nodes && x in nodes' && (x != o.home || h != o.h) ==>
      nodes'[x].delivered[Delivery(h, d)] == nodes[x].delivered[Delivery(h, d)]
  }

  /** Exactly the changed gateway accounts for the change of `AnswersDue`. */
  lemma DueChange(nodes: map<GatewayId, Gateway>, hop: GatewayId -> GatewayId, o: Owner, d: Data, x: GatewayId,
                  g: Gateway)
    requires o.home in nodes && x in nodes
    ensures AnswersDue(nodes[x := g], hop, o, d) - AnswersDue(nodes, hop, o, d) ==
            Copies(g, hop(x), d) - Copies(nodes[x], hop(x), d)
            + (if x == o.home then g.delivered[Delivery(o.h, d)] else 0)
            - (if x == o.home then nodes[x].delivered[Delivery(o.h, d)] else 0)
  {
    assert nodes[x := g].Keys == nodes.Keys;
    SumChange(nodes.Keys, Queued(nodes, hop, d), Queued(nodes[x := g], hop, d), x);
  }

  /** A change of one gateway that touches neither the copies nor the deliveries of `d`. */
  lemma Untouched(nodes: map<GatewayId, Gateway>, hop: GatewayId -> GatewayId, o: Owner, d: Data, x: GatewayId,
                  g: Gateway)
    requires o.home in nodes && x in nodes
    requires Copies(g, hop(x), d) == Copies(nodes[x], hop(x), d)
    requires forall h :: g.delivered[Delivery(h, d)] == nodes[x].delivered[Delivery(h, d)]
    ensures AnswersDue(nodes[x := g], hop, o, d) == AnswersDue(nodes, hop, o, d)
    ensures NobodyElse(nodes, nodes[x := g], o, d)
  {
    DueChange(nodes, hop, o, d, x, g);
  }

  ghost predicate Sends(s: LocalStep, d: Data)
  {
    Begins(s, d) || (s.DoAnswer? && PullResponse(s.pid, s.body) == d)
  }

  lemma UnrelatedAct(g: Gateway, s: LocalStep, k: GatewayId, h: Handle, d: Data)
    requires !Sends(s, d)
    ensures Copies(Act(g, s), k, d) == Copies(g, k, d)
    ensures Act(g, s).delivered[Delivery(h, d)] == g.delivered[Delivery(h, d)]
  {
    if s.DoPush? {
      OtherPush(g, s, k, h, d);
    } else if s.DoPull? {
      OtherPull(g, s, k, h, d);
    } else if !s.DoAnswer? {
      ActKeepsQueues(g, s);
    }
  }

  lemma ActKeepsQueues(g: Gateway, s: LocalStep)
    requires !s.DoPush? && !s.DoPull? && !s.DoAnswer?
    ensures Act(g, s).delivered == g.delivered && Act(g, s).links.Keys == g.links.Keys
    ensures forall k :: k in g.links ==> Act(g, s).links[k].data == g.links[k].data
  {
  }

  lemma UnrelatedData(g: Gateway, from: GatewayId, e: Data, k: GatewayId, h: Handle, d: Data)
    requires e != d
    ensures Copies(ReceiveData(g, from, e), k, d) == Copies(g, k, d)
    ensures ReceiveData(g, from, e).delivered[Delivery(h, d)] == g.delivered[Delivery(h, d)]
  {
    ReceivedSends(g, from, e);
    SentCopies(g, ReceiveData(g, from, e), Onward(g, from, e), e, k, d);
    match e
    case Push(topic, _) => DeliveredCount(GlobalHandlers(g.push, topic), e, h, d);
    case PullRequest(_, topic, _) => NotInPullDeliveries(g.pull, topic, {}, e, h, d);
    case PullResponse(_, _) =>
  }

  /** An answer at a visited gateway is handed to the owner or put on the way home. */
  lemma AnswerCounts(nodes: map<GatewayId, Gateway>, hop: GatewayId -> GatewayId, o: Owner, at: GatewayId, body: string,
                     origin: set<GatewayId>)
    requires Routed(nodes, hop, o) && at in nodes && o.home in nodes
    requires o.pid in nodes[at].plugins || (o.pid in nodes[at].routes ==> nodes[at].routes[o.pid] !in origin)
    ensures var d := PullResponse(o.pid, body);
            var nodes' := nodes[at := Answer(nodes[at], o.pid, body, origin)];
            && AnswersDue(nodes', hop, o, d) == AnswersDue(nodes, hop, o, d)
               + (if Visited(nodes[at], o.pid) then 1 else 0)
            && NobodyElse(nodes, nodes', o, d)
  {
    var d, g := PullResponse(o.pid, body), nodes[at];
    assert RoutedAt(nodes, hop, o, at);
    var g' := Answer(g, o.pid, body, origin);
    var targets := if o.pid !in g.plugins && o.pid in g.routes then {g.routes[o.pid]} else {};
    assert g'.links == SendTo(g.links, targets, d) by { assert SendTo(g.links, {}, d) == g.links; }
    SentCopies(g, g', targets, d, hop(at), d);
    DueChange(nodes, hop, o, d, at, g');
  }

  lemma ActCounts(n: Net, hop: GatewayId -> GatewayId, o: Owner, at: GatewayId, s: LocalStep, body: string)
    requires Routed(n.nodes, hop, o) && at in n.nodes && o.home in n.nodes
    ensures var d, nodes' := PullResponse(o.pid, body), n.nodes[at := Act(n.nodes[at], s)];
            && AnswersDue(nodes', hop, o, d) ==
               AnswersDue(n.nodes, hop, o, d) + (if Answers(n, Perform(at, s), d) then 1 else 0)
            && NobodyElse(n.nodes, nodes', o, d)
  {
    var d := PullResponse(o.pid, body);
    if Sends(s, d) {
      AnswerCounts(n.nodes, hop, o, at, body, {});
    } else {
      forall h ensures Act(n.nodes[at], s).delivered[Delivery(h, d)] == n.nodes[at].delivered[Delivery(h, d)] {
        UnrelatedAct(n.nodes[at], s, hop(at), h, d);
      }
      UnrelatedAct(n.nodes[at], s, hop(at), 0, d);
      Untouched(n.nodes, hop, o, d, at, Act(n.nodes[at], s));
    }
  }

  /** Taking a message off a queue before it is handled. */
  lemma TakeCounts(nodes: map<GatewayId, Gateway>, hop: GatewayId -> GatewayId, o: Owner, from: GatewayId,
                   to: GatewayId, i: nat, d: Data)
    requires Routed(nodes, hop, o) && o.home in nodes && d.PullResponse? && d.pluginId == o.pid
    requires from in nodes && to in nodes[from].links && i < |nodes[from].links[to].data|
    ensures AnswersDue(nodes[from := TakeData(nodes[from], to, i)], hop, o, d) ==
            AnswersDue(nodes, hop, o, d) - (if nodes[from].links[to].data[i] == d then 1 else 0)
  {
    assert RoutedAt(nodes, hop, o, from);
    assert DataOk(nodes, hop, o, from, to, nodes[from].links[to].data[i]);
    TakenCopies(nodes[from], to, i, hop(from), d);
    DueChange(nodes, hop, o, d, from, TakeData(nodes[from], to, i));
  }

  lemma DataCounts(n: Net, hop: GatewayId -> GatewayId, o: Owner, from: GatewayId, to: GatewayId, i: nat, body: string)
    requires WellFormed(n) && Oriented(n.conns, hop, o.home) && Routed(n.nodes, hop, o) && o.home in n.nodes
    requires Enabled(n, DeliverData(from, to, i))
    ensures var d, nodes' := PullResponse(o.pid, body), Apply(n, DeliverData(from, to, i)).nodes;
            && o.home in nodes'
            && AnswersDue(nodes', hop, o, d) == AnswersDue(n.nodes, hop, o, d)
            && NobodyElse(n.nodes, nodes', o, d)
  {
    assert UpToDate(n, from) && (from, to) in n.conns;
    MoveCounts(n.nodes, n.conns, hop, o, from, to, i, body);
  }

  lemma MoveCounts(nodes: map<GatewayId, Gateway>, conns: set<(GatewayId, GatewayId)>, hop: GatewayId -> GatewayId,
                   o: Owner,
                   from: GatewayId, to: GatewayId, i: nat, body: string)
    requires Oriented(conns, hop, o.home) && Routed(nodes, hop, o) && o.home in nodes && from in nodes && to in nodes
    requires (from, to) in conns && from != to && to in nodes[from].links && i < |nodes[from].links[to].data|
    ensures var d, e := PullResponse(o.pid, body), nodes[from].links[to].data[i];
            var nodes' := nodes[from := TakeData(nodes[from], to, i)][to := ReceiveData(nodes[to], from, e)];
            && o.home in nodes'
            && AnswersDue(nodes', hop, o, d) == AnswersDue(nodes, hop, o, d)
            && NobodyElse(nodes, nodes', o, d)
  {
    var e, gf := nodes[from].links[to].data[i], TakeData(nodes[from], to, i);
    var nodes1 := nodes[from := gf];
    TakeCounts(nodes, hop, o, from, to, i, PullResponse(o.pid, body));
    StillOk(nodes, hop, o, from, to, i);
    TakeKeepsRouted(nodes, hop, o, from, to, i);
    ArrivalCounts(nodes1, conns, hop, o, from, to, e, body);
    TakingDelivers(nodes, o, from, to, i, nodes1[to := ReceiveData(nodes1[to], from, e)], PullResponse(o.pid, body));
  }

  lemma TakingDelivers(nodes: map<GatewayId, Gateway>, o: Owner, from: GatewayId, to: GatewayId, i: nat,
                       nodes': map<GatewayId, Gateway>, d: Data)
    requires from in nodes && to in nodes[from].links && i < |nodes[from].links[to].data|
    requires NobodyElse(nodes[from := TakeData(nodes[from], to, i)], nodes', o, d)
    ensures NobodyElse(nodes, nodes', o, d)
  {}

  /** Handling a message after it has been taken off its queue. */
  lemma ArrivalCounts(nodes: map<GatewayId, Gateway>, conns: set<(GatewayId, GatewayId)>, hop: GatewayId -> GatewayId,
                      o: Owner,
                      from: GatewayId, to: GatewayId, e: Data, body: string)
    requires Oriented(conns, hop, o.home) && Routed(nodes, hop, o) && o.home in nodes && to in nodes
    requires (from, to) in conns && from != to && DataOk(nodes, hop, o, from, to, e)
    ensures var d, nodes' := PullResponse(o.pid, body), nodes[to := ReceiveData(nodes[to], from, e)];
            && AnswersDue(nodes', hop, o, d) == AnswersDue(nodes, hop, o, d) + (if e == d then 1 else 0)
            && NobodyElse(nodes, nodes', o, d)
  {
    var d := PullResponse(o.pid, body);
    assert RoutedAt(nodes, hop, o, to);
    if e == d {
      AnswerCounts(nodes, hop, o, to, body, {from});
    } else {
      forall h
        ensures ReceiveData(nodes[to], from, e).delivered[Delivery(h, d)] == nodes[to].delivered[Delivery(h, d)]
      {
        UnrelatedData(nodes[to], from, e, hop(to), h, d);
      }
      UnrelatedData(nodes[to], from, e, hop(to), 0, d);
      Untouched(nodes, hop, o, d, to, ReceiveData(nodes[to], from, e));
    }
  }

  lemma SameDataCounts(nodes: map<GatewayId, Gateway>, hop: GatewayId -> GatewayId, o: Owner, x: GatewayId, g: Gateway,
                       d: Data)
    requires o.home in nodes && x in nodes && SameData(nodes[x], g)
    ensures AnswersDue(nodes[x := g], hop, o, d) == AnswersDue(nodes, hop, o, d)
    ensures NobodyElse(nodes, nodes[x := g], o, d)
  {
    assert hop(x) in g.links.Keys <==> hop(x) in nodes[x].links.Keys;
    Untouched(nodes, hop, o, d, x, g);
  }

  lemma ControlCounts(n: Net, hop: GatewayId -> GatewayId, o: Owner, from: GatewayId, to: GatewayId, d: Data)
    requires o.home in n.nodes && Enabled(n, DeliverControl(from, to))
    ensures var nodes' := Apply(n, DeliverControl(from, to)).nodes;
            && o.home in nodes'
            && AnswersDue(nodes', hop, o, d) == AnswersDue(n.nodes, hop, o, d)
            && NobodyElse(n.nodes, nodes', o, d)
  {
    var c := n.nodes[from].links[to].control[0];
    TakeControlKeepsData(n.nodes[from], to);
    ControlKeepsData(n.nodes[to], from, c);
    SameDataCounts(n.nodes, hop, o, from, TakeControl(n.nodes[from], to), d);
    SameDataCounts(n.nodes[from := TakeControl(n.nodes[from], to)], hop, o, to, ReceiveControl(n.nodes[to], from, c),
                   d);
  }

  lemma AssociateCounts(n: Net, hop: GatewayId -> GatewayId, o: Owner, from: GatewayId, to: GatewayId, d: Data)
    requires WellFormed(n) && o.home in n.nodes && Enabled(n, Associate(from, to))
    ensures var nodes' := Apply(n, Associate(from, to)).nodes;
            && o.home in nodes'
            && AnswersDue(nodes', hop, o, d) == AnswersDue(n.nodes, hop, o, d)
            && NobodyElse(n.nodes, nodes', o, d)
  {
    assert UpToDate(n, to) && from !in n.nodes[to].links;
    Untouched(n.nodes, hop, o, d, to, RegisterConnection(n.nodes[to], from));
  }

  lemma StepCounts(n: Net, hop: GatewayId -> GatewayId, o: Owner, s: Step, body: string)
    requires WellFormed(n) && Oriented(n.conns, hop, o.home) && Routed(n.nodes, hop, o)
    requires Enabled(n, s) && o.home in n.nodes
    ensures var d, nodes' := PullResponse(o.pid, body), Apply(n, s).nodes;
            && o.home in nodes'
            && AnswersDue(nodes', hop, o, d) == AnswersDue(n.nodes, hop, o, d) + (if Answers(n, s, d) then 1 else 0)
            && NobodyElse(n.nodes, nodes', o, d)
  {
    var d := PullResponse(o.pid, body);
    match s
    case Perform(at, step) => ActCounts(n, hop, o, at, step, body);
    case Connect(a, b) =>
    case Associate(from, to) => AssociateCounts(n, hop, o, from, to, d);
    case DeliverControl(from, to) => ControlCounts(n, hop, o, from, to, d);
    case DeliverData(from, to, i) => DataCounts(n, hop, o, from, to, i, body);
  }

  lemma {:induction false} RunCounts(n: Net, f: Forest, o: Owner, run: seq<Step>, n': Net, body: string)
    requires OnTrack(n, f, o) && AllRespect(run, o, f) && Runs(n, run, n') && o.home in n.nodes
    ensures var d, hop := PullResponse(o.pid, body), HopTo(f, o.home);
            && o.home in n'.nodes && n'.nodes.Keys == n.nodes.Keys
            && AnswersDue(n'.nodes, hop, o, d) == AnswersDue(n.nodes, hop, o, d) + AnswersGiven(n, run, n', d)
            && NobodyElse(n.nodes, n'.nodes, o, d)
    decreases run
  {
    if run != [] {
      assert run[0] in run && forall s :: s in run[1..] ==> s in run;
      TreeOrients(n, f, o.home);
      StepCounts(n, HopTo(f, o.home), o, run[0], body);
      StepKeepsNodes(n, run[0]);
      StepKeepsOnTrack(n, f, o, run[0]);
      RunCounts(Apply(n, run[0]), f, o, run[1..], n', body);
    }
  }

  /**
   In every run of a tree of gateways, once no answer `body` to the owner's requests is left
   under way, the owner has been handed it exactly as often as it was given at a gateway
   that a request had visited, and nobody else has been handed it.
   */
  lemma AnswersArriveOnce(n0: Net, f: Forest, o: Owner, run: seq<Step>, n: Net, body: string, x: GatewayId, h: Handle)
    requires Initial(n0) && f.Acyclic() && o.home in n0.nodes && x in n0.nodes
    requires AllRespect(run, o, f) && Runs(n0, run, n) && NoneUnderWay(n, PullResponse(o.pid, body))
    ensures x in n.nodes
    ensures n.nodes[x].delivered[Delivery(h, PullResponse(o.pid, body))] ==
            if x == o.home && h == o.h then AnswersGiven(n0, run, n, PullResponse(o.pid, body)) else 0
  {
    var d, hop := PullResponse(o.pid, body), HopTo(f, o.home);
    RunCounts(n0, f, o, run, n, body);
    NothingUnderWay(n0.nodes, hop, d);
    NothingUnderWay(n.nodes, hop, d);
  }
}
