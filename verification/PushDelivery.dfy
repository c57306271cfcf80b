/**
 A global push on a tree at rest is delivered exactly once to every plugin with a
 matching subscription, whatever the order in which the copies are forwarded.
 */
module PushDelivery {
  import opened Sums
  import opened Topology
  import opened TreeSums
  import opened Tables
  import opened Network
  import opened Conservation
  import opened Flooding

  /** Nothing but pushes, pull requests and answers is going on. */
  ghost predicate Settled(n: Net, f: Forest)
  {
    TreeShaped(n, f) && Conserved(n) && Quiet(n)
  }

  ghost predicate IsTraffic(s: Step)
  {
    || s.DeliverData?
    || (s.Perform? && (s.step.DoPush? || s.step.DoPull? || s.step.DoAnswer? || s.step.DoForget?))
  }

  /** No step of the run starts another push or request with the content of `d`. */
  ghost predicate TrafficBut(run: seq<Step>, d: Data)
  {
    forall s :: s in run ==> IsTraffic(s) && !Starts(s, d)
  }

  ghost predicate Starts(s: Step, d: Data)
  {
    s.Perform? && Begins(s.step, d)
  }

  /** The push, or the pull request, is a new copy of `d`. */
  ghost predicate Begins(s: LocalStep, d: Data)
  {
    || (s.DoPush? && Push(s.topic, s.body) == d)
    || (s.DoPull? && PullRequest(s.pid, s.topic, s.body) == d)
  }

  // ----- traffic leaves the subscriptions alone -----

  /** The step changes only data queues and what is not a subscription. */
  ghost predicate SameControlAll(n: Net, n': Net)
  {
    && n'.nodes.Keys == n.nodes.Keys
    && n'.conns == n.conns && n'.greeting == n.greeting
    && forall x :: x in n.nodes ==> SameControl(n.nodes[x], n'.nodes[x])
  }

  lemma ReplaceSame(n: Net, x: GatewayId, g: Gateway)
    requires x in n.nodes && SameControl(n.nodes[x], g)
    ensures SameControlAll(n, n.(nodes := n.nodes[x := g]))
  {
  }

  lemma ReplacePairSame(n: Net, a: GatewayId, ga: Gateway, b: GatewayId, gb: Gateway)
    requires a in n.nodes && b in n.nodes && a != b && SameControl(n.nodes[a], ga) && SameControl(n.nodes[b], gb)
    ensures SameControlAll(n, n.(nodes := n.nodes[a := ga][b := gb]))
  {
  }

  lemma TrafficKeepsControl(n: Net, s: Step)
    requires IsTraffic(s) && Enabled(n, s)
    ensures SameControlAll(n, Apply(n, s))
  {
    match s
    case Perform(at, step) =>
      Conservation.TrafficKeepsControl(n.nodes[at], step);
      ReplaceSame(n, at, Act(n.nodes[at], step));
    case DeliverData(from, to, i) =>
      var e := n.nodes[from].links[to].data[i];
      TakeDataKeepsControl(n.nodes[from], to, i);
      ReceiveDataKeepsControl(n.nodes[to], from, e);
      ReplacePairSame(n, from, TakeData(n.nodes[from], to, i), to, ReceiveData(n.nodes[to], from, e));
  }

  lemma SameControlKeepsQuiet(n: Net, n': Net)
    requires SameControlAll(n, n') && Quiet(n)
    ensures Quiet(n')
  {
    forall a | a in n'.nodes ensures NothingQueued(n'.nodes[a]) {
      assert NothingQueued(n.nodes[a]) && SameControl(n.nodes[a], n'.nodes[a]);
      assert forall b :: b in n'.nodes[a].links ==> b in n.nodes[a].links.Keys;
    }
  }

  lemma TrafficKeepsSettled(n: Net, f: Forest, s: Step)
    requires Settled(n, f) && IsTraffic(s) && Enabled(n, s)
    ensures Settled(Apply(n, s), f) && SameControlAll(n, Apply(n, s))
  {
    TrafficKeepsControl(n, s);
    StepKeepsGood(n, s);
    SameControlKeepsQuiet(n, Apply(n, s));
    SameTree(n, Apply(n, s), f);
  }

  lemma SameTree(n: Net, n': Net, f: Forest)
    requires TreeShaped(n, f) && WellFormed(n') && n'.conns == n.conns && n'.greeting == n.greeting
    ensures TreeShaped(n', f)
  {
  }

  // ----- copies under way -----

  ghost function Copies(g: Gateway, k: GatewayId, d: Data): nat
  {
    if k in g.links then multiset(g.links[k].data)[d] else 0
  }

  /** Copies of `d` queued on the links that `hop` leads along. */
  ghost function Queued(nodes: map<GatewayId, Gateway>, hop: GatewayId -> GatewayId, d: Data): GatewayId -> nat
  {
    y => if y in nodes then Copies(nodes[y], hop(y), d) else 0
  }

  ghost function UnderWay(nodes: map<GatewayId, Gateway>, hop: GatewayId -> GatewayId, d: Data): nat
  {
    Sum(nodes.Keys, Queued(nodes, hop, d))
  }

  /** The neighbour of each gateway on the way to `x`. */
  ghost function HopTo(f: Forest, x: GatewayId): GatewayId -> GatewayId
    requires f.Acyclic()
  {
    y => if y != x && f.Joined(y, x) then f.Hop(y, x) else y
  }

  lemma TakenCopies(g: Gateway, to: GatewayId, i: nat, k: GatewayId, d: Data)
    requires to in g.links && i < |g.links[to].data|
    ensures Copies(TakeData(g, to, i), k, d) ==
            Copies(g, k, d) - (if k == to && g.links[to].data[i] == d then 1 else 0)
  {
    var s := g.links[to].data;
    assert s == s[..i] + [s[i]] + s[i + 1..];
  }

  lemma SentCopies(g: Gateway, g': Gateway, targets: set<GatewayId>, e: Data, k: GatewayId, d: Data)
    requires g'.links == SendTo(g.links, targets, e)
    ensures Copies(g', k, d) == Copies(g, k, d) + (if e == d && k in targets && k in g.links then 1 else 0)
  {
  }

  /** The neighbours that a push or a pull request is for. */
  ghost function Addressees(g: Gateway, d: Data): set<GatewayId>
    requires !d.PullResponse?
  {
    match d
    case Push(topic, _) => NeighboursFor(g.subs, topic)
    case PullRequest(_, topic, _) => PullNeighbours(g.pulls, topic)
  }

  /** The neighbours that a received message is passed on to. */
  ghost function Onward(g: Gateway, from: GatewayId, e: Data): set<GatewayId>
  {
    match e
    case Push(_, _) => Addressees(g, e) - {from}
    case PullRequest(_, _, _) => Addressees(g, e) - {from}
    case PullResponse(pid, _) =>
      if pid !in g.plugins && pid in g.routes && g.routes[pid] != from then {g.routes[pid]} else {}
  }

  lemma ReceivedSends(g: Gateway, from: GatewayId, e: Data)
    ensures ReceiveData(g, from, e).links == SendTo(g.links, Onward(g, from, e), e)
  {
    assert SendTo(g.links, {}, e) == g.links;
  }

  /** How one delivery changes the number of copies of `d` on the way along `hop`. */
  lemma MovedCopies(n: Net, from: GatewayId, to: GatewayId, i: nat, hop: GatewayId -> GatewayId, d: Data)
    requires Enabled(n, DeliverData(from, to, i))
    ensures var e := n.nodes[from].links[to].data[i];
            UnderWay(Apply(n, DeliverData(from, to, i)).nodes, hop, d) ==
            UnderWay(n.nodes, hop, d)
            - (if e == d && hop(from) == to then 1 else 0)
            + (if e == d && hop(to) in Onward(n.nodes[to], from, e) && hop(to) in n.nodes[to].links then 1 else 0)
  {
    var e := n.nodes[from].links[to].data[i];
    var gf, gt := TakeData(n.nodes[from], to, i), ReceiveData(n.nodes[to], from, e);
    var nodes' := n.nodes[from := gf][to := gt];
    TakenCopies(n.nodes[from], to, i, hop(from), d);
    ReceivedSends(n.nodes[to], from, e);
    SentCopies(n.nodes[to], gt, Onward(n.nodes[to], from, e), e, hop(to), d);
    KeysKept(n.nodes, from, gf, to, gt);
    ChangeTwo(n.nodes.Keys, Queued(n.nodes, hop, d), Queued(nodes', hop, d), from, to);
  }

  lemma ChangeTwo(s: set<GatewayId>, v: GatewayId -> nat, w: GatewayId -> nat, a: GatewayId, b: GatewayId)
    requires a in s && b in s && a != b
    requires forall x :: x in s && x != a && x != b ==> v(x) == w(x)
    ensures Sum(s, w) - Sum(s, v) == w(a) - v(a) + w(b) - v(b)
  {
    SumStep(s, v, a);
    SumStep(s, w, a);
    SumChange(s - {a}, v, w, b);
  }

  // ----- one delivery -----

  /** A gateway forwards towards every gateway with a matching global registration. */
  lemma ForwardsToward(n: Net, f: Forest, y: GatewayId, x: GatewayId, topic: string)
    requires Settled(n, f) && y in n.nodes && x in n.nodes && x != y && f.Joined(y, x)
    requires GlobalHandlers(n.nodes[x].push, topic) != {}
    ensures f.Hop(y, x) in NeighboursFor(n.nodes[y].subs, topic)
    ensures f.Hop(y, x) in n.nodes[y].links
  {
    var k := f.Hop(y, x);
    assert f.Edge(y, k);
    LinksAreEdges(n, f, y, k);
    var h :| h in GlobalHandlers(n.nodes[x].push, topic);
    var s :| s in n.nodes[x].push && s.topic <= topic && s.scope == Global;
    CountPositive(n.nodes[x].push, IsGlobal(s.topic));
    CountsAtRest(n, f, y, k, s.topic);
    SumStep(f.Side(n.nodes.Keys, y, k), WantedAt(n, s.topic), x);
    CountPositive(n.nodes[y].subs, IsFrom(s.topic, k));
    assert NeighbourSub(s.topic, k) in n.nodes[y].subs;
  }

  /** The way to `x` across the link from `from` to `to`. */
  lemma WayAcross(n: Net, f: Forest, from: GatewayId, to: GatewayId, x: GatewayId)
    requires TreeShaped(n, f) && Open(n, from, to)
    ensures HopTo(f, x)(from) == to ==> to == x || (HopTo(f, x)(to) != from && HopTo(f, x)(to) != to && f.Joined(to, x))
    ensures HopTo(f, x)(from) != to ==> to != x && (HopTo(f, x)(to) == from || HopTo(f, x)(to) == to)
    ensures x !in n.nodes[from].links || x != from
    ensures HopTo(f, x)(x) == x && to !in n.nodes[to].links
  {
    LinksAreEdges(n, f, from, to);
    LinksAreEdges(n, f, to, to);
    if f.Joined(from, x) || f.Joined(to, x) {
      f.LinkSplits(to, from, to);
      f.LinkSplits(from, to, x);
      if to != x { LinksAreEdges(n, f, to, f.Hop(to, x)); assert f.Edge(to, f.Hop(to, x)); }
    } else {
      f.LinkSplits(to, from, to);
    }
  }

  /** What arrives is passed on to everyone it is for but the sender. */
  lemma OnwardIff(g: Gateway, from: GatewayId, d: Data, k: GatewayId)
    requires !d.PullResponse?
    ensures k in Onward(g, from, d) <==> k != from && k in Addressees(g, d)
  {}

  /** A copy that arrives on the way to `x` is passed on exactly when `x` is further on. */
  lemma PassedOnToward(n: Net, f: Forest, from: GatewayId, to: GatewayId, x: GatewayId, d: Data)
    requires Settled(n, f) && Open(n, from, to) && x in n.nodes && d.Push?
    requires GlobalHandlers(n.nodes[x].push, d.topic) != {}
    ensures var k := HopTo(f, x)(to);
            (k in Onward(n.nodes[to], from, d) && k in n.nodes[to].links) <==> (HopTo(f, x)(from) == to && to != x)
  {
    WayAcross(n, f, from, to, x);
    var k := HopTo(f, x)(to);
    if HopTo(f, x)(from) == to {
      if to != x {
        ForwardsToward(n, f, to, x, d.topic);
        OnwardIff(n.nodes[to], from, d, k);
      }
    } else if k == from {
      OnwardIff(n.nodes[to], from, d, k);
    }
  }

  lemma HopToArrives(n: Net, f: Forest, from: GatewayId, to: GatewayId)
    requires TreeShaped(n, f) && Open(n, from, to)
    ensures HopTo(f, to)(from) == to
  {
    WayAcross(n, f, from, to, to);
  }

  /** One delivery of the push moves a copy on, hands it over, or takes it off the way to `x`. */
  lemma DeliveryAdvances(n: Net, f: Forest, from: GatewayId, to: GatewayId, i: nat, x: GatewayId, d: Data)
    requires Settled(n, f) && Enabled(n, DeliverData(from, to, i)) && x in n.nodes && d.Push?
    requires GlobalHandlers(n.nodes[x].push, d.topic) != {}
    ensures UnderWay(Apply(n, DeliverData(from, to, i)).nodes, HopTo(f, x), d) ==
            UnderWay(n.nodes, HopTo(f, x), d)
            - (if to == x && n.nodes[from].links[to].data[i] == d then 1 else 0)
  {
    MovedCopies(n, from, to, i, HopTo(f, x), d);
    PassedOnToward(n, f, from, to, x, d);
    HopToArrives(n, f, from, to);
  }

  lemma DeliveredCount(hs: set<Handle>, e: Data, h: Handle, d: Data)
    ensures Deliveries(hs, e)[Delivery(h, d)] == if e == d && h in hs then 1 else 0
  {
    assert Delivery(h, d) in (set k | k in hs :: Delivery(k, e)) <==> e == d && h in hs;
  }

  lemma {:induction false} NotInPullDeliveries(pull: seq<LocalSub>, topic: string, sender: set<Handle>, e: Data,
                                                  h: Handle, d: Data)
    requires e != d
    ensures PullDeliveries(pull, topic, sender, e)[Delivery(h, d)] == 0
  {
    if pull != [] { NotInPullDeliveries(pull[1..], topic, sender, e, h, d); }
  }

  /** What one received message adds to the deliveries of `d` to plugin `h`. */
  lemma ReceivedDeliveries(g: Gateway, from: GatewayId, e: Data, h: Handle, d: Data)
    requires d.Push?
    ensures ReceiveData(g, from, e).delivered[Delivery(h, d)] ==
            g.delivered[Delivery(h, d)] + (if e == d && h in GlobalHandlers(g.push, d.topic) then 1 else 0)
  {
    match e
    case Push(topic, _) => DeliveredCount(GlobalHandlers(g.push, topic), e, h, d);
    case PullRequest(_, topic, _) => NotInPullDeliveries(g.pull, topic, {}, e, h, d);
    case PullResponse(_, _) =>
  }

  lemma OtherPush(g: Gateway, s: LocalStep, k: GatewayId, h: Handle, d: Data)
    requires s.DoPush? && Push(s.topic, s.body) != d
    ensures Copies(Act(g, s), k, d) == Copies(g, k, d)
    ensures Act(g, s).delivered[Delivery(h, d)] == g.delivered[Delivery(h, d)]
  {
    var e := Push(s.topic, s.body);
    DeliveredCount(MatchingHandlers(g.push, s.topic) - {s.h}, e, h, d);
    if s.scope == Global { SentCopies(g, Act(g, s), NeighboursFor(g.subs, s.topic), e, k, d); }
  }

  lemma OtherPull(g: Gateway, s: LocalStep, k: GatewayId, h: Handle, d: Data)
    requires s.DoPull? && PullRequest(s.pid, s.topic, s.body) != d
    ensures Copies(Act(g, s), k, d) == Copies(g, k, d)
    ensures Act(g, s).delivered[Delivery(h, d)] == g.delivered[Delivery(h, d)]
  {
    var e := PullRequest(s.pid, s.topic, s.body);
    NotInPullDeliveries(g.pull, s.topic, {s.h}, e, h, d);
    if s.scope == Global { SentCopies(g, Act(g, s), PullNeighbours(g.pulls, s.topic), e, k, d); }
  }

  lemma OtherAnswer(g: Gateway, s: LocalStep, k: GatewayId, h: Handle, d: Data)
    requires !d.PullResponse? && (s.DoAnswer? || s.DoForget?)
    ensures Copies(Act(g, s), k, d) == Copies(g, k, d)
    ensures Act(g, s).delivered[Delivery(h, d)] == g.delivered[Delivery(h, d)]
  {
    if s.DoAnswer? && s.pid !in g.plugins && s.pid in g.routes {
      SentCopies(g, Act(g, s), {g.routes[s.pid]}, PullResponse(s.pid, s.body), k, d);
    }
  }

  /** Other work of a gateway changes neither the copies of `d` nor its deliveries. */
  lemma OtherActs(g: Gateway, s: LocalStep, k: GatewayId, h: Handle, d: Data)
    requires !d.PullResponse? && (s.DoPush? || s.DoPull? || s.DoAnswer? || s.DoForget?) && !Begins(s, d)
    ensures Copies(Act(g, s), k, d) == Copies(g, k, d)
    ensures Act(g, s).delivered[Delivery(h, d)] == g.delivered[Delivery(h, d)]
  {
    if s.DoPush? { OtherPush(g, s, k, h, d); }
    else if s.DoPull? { OtherPull(g, s, k, h, d); }
    else { OtherAnswer(g, s, k, h, d); }
  }

  lemma OtherActsUnderWay(n: Net, at: GatewayId, s: LocalStep, hop: GatewayId -> GatewayId, d: Data)
    requires at in n.nodes && !d.PullResponse?
    requires (s.DoPush? || s.DoPull? || s.DoAnswer? || s.DoForget?) && !Begins(s, d)
    ensures UnderWay(Apply(n, Perform(at, s)).nodes, hop, d) == UnderWay(n.nodes, hop, d)
  {
    OtherActs(n.nodes[at], s, hop(at), 0, d);
    var nodes' := n.nodes[at := Act(n.nodes[at], s)];
    assert nodes'.Keys == n.nodes.Keys;
    SumCongruent(n.nodes.Keys, Queued(n.nodes, hop, d), Queued(nodes', hop, d));
  }

  /** Deliveries to plugin `h` of gateway `x`, and those still to come. */
  ghost function Due(n: Net, f: Forest, x: GatewayId, h: Handle, d: Data): nat
    requires f.Acyclic() && x in n.nodes && d.Push?
  {
    n.nodes[x].delivered[Delivery(h, d)] +
    if h in GlobalHandlers(n.nodes[x].push, d.topic) then UnderWay(n.nodes, HopTo(f, x), d) else 0
  }

  lemma DeliveryKeepsDue(n: Net, f: Forest, from: GatewayId, to: GatewayId, i: nat, x: GatewayId, h: Handle, d: Data)
    requires Settled(n, f) && Enabled(n, DeliverData(from, to, i)) && d.Push? && x in n.nodes
    ensures x in Apply(n, DeliverData(from, to, i)).nodes
    ensures Due(Apply(n, DeliverData(from, to, i)), f, x, h, d) == Due(n, f, x, h, d)
  {
    TrafficKeepsControl(n, DeliverData(from, to, i));
    var n' := Apply(n, DeliverData(from, to, i));
    assert SameControl(n.nodes[x], n'.nodes[x]);
    DeliveredAt(n, from, to, i, x, h, d);
    if h in GlobalHandlers(n.nodes[x].push, d.topic) { DeliveryAdvances(n, f, from, to, i, x, d); }
    DueKept(n, n', f, x, h, d, if n.nodes[from].links[to].data[i] == d && to == x then 1 else 0);
  }

  /** What is handed over is no longer under way. */
  lemma DueKept(n: Net, n': Net, f: Forest, x: GatewayId, h: Handle, d: Data, arrived: nat)
    requires f.Acyclic() && x in n.nodes && x in n'.nodes && d.Push? && n'.nodes[x].push == n.nodes[x].push
    requires h in GlobalHandlers(n.nodes[x].push, d.topic) ==>
      && UnderWay(n'.nodes, HopTo(f, x), d) == UnderWay(n.nodes, HopTo(f, x), d) - arrived
      && n'.nodes[x].delivered[Delivery(h, d)] == n.nodes[x].delivered[Delivery(h, d)] + arrived
    requires h !in GlobalHandlers(n.nodes[x].push, d.topic) ==>
      n'.nodes[x].delivered[Delivery(h, d)] == n.nodes[x].delivered[Delivery(h, d)]
    ensures Due(n', f, x, h, d) == Due(n, f, x, h, d)
  {}

  lemma DeliveredAt(n: Net, from: GatewayId, to: GatewayId, i: nat, x: GatewayId, h: Handle, d: Data)
    requires Enabled(n, DeliverData(from, to, i)) && x in n.nodes && d.Push?
    ensures Apply(n, DeliverData(from, to, i)).nodes[x].delivered[Delivery(h, d)] ==
            n.nodes[x].delivered[Delivery(h, d)] +
            (if n.nodes[from].links[to].data[i] == d && to == x && h in GlobalHandlers(n.nodes[x].push, d.topic)
             then 1 else 0)
  {
    ReceivedDeliveries(n.nodes[to], from, n.nodes[from].links[to].data[i], h, d);
  }

  lemma ActKeepsDue(n: Net, f: Forest, at: GatewayId, step: LocalStep, x: GatewayId, h: Handle, d: Data)
    requires f.Acyclic() && at in n.nodes && x in n.nodes
    requires IsTraffic(Perform(at, step)) && d.Push? && !Starts(Perform(at, step), d)
    ensures Due(Apply(n, Perform(at, step)), f, x, h, d) == Due(n, f, x, h, d)
  {
    TrafficKeepsControl(n, Perform(at, step));
    assert SameControl(n.nodes[x], Apply(n, Perform(at, step)).nodes[x]);
    OtherActs(n.nodes[at], step, x, h, d);
    OtherActsUnderWay(n, at, step, HopTo(f, x), d);
  }

  lemma StepKeepsDue(n: Net, f: Forest, s: Step, x: GatewayId, h: Handle, d: Data)
    requires Settled(n, f) && IsTraffic(s) && Enabled(n, s) && d.Push? && !Starts(s, d) && x in n.nodes
    ensures x in Apply(n, s).nodes && Due(Apply(n, s), f, x, h, d) == Due(n, f, x, h, d)
  {
    match s
    case Perform(at, step) => ActKeepsDue(n, f, at, step, x, h, d);
    case DeliverData(from, to, i) => DeliveryKeepsDue(n, f, from, to, i, x, h, d);
  }

  lemma {:induction false} RunKeepsDue(n: Net, f: Forest, run: seq<Step>, n': Net, x: GatewayId, h: Handle, d: Data)
    requires Settled(n, f) && d.Push? && TrafficBut(run, d) && Runs(n, run, n') && x in n.nodes
    ensures Settled(n', f) && x in n'.nodes && Due(n', f, x, h, d) == Due(n, f, x, h, d)
    decreases run
  {
    if run != [] {
      assert run[0] in run && forall s :: s in run[1..] ==> s in run;
      TrafficKeepsSettled(n, f, run[0]);
      StepKeepsDue(n, f, run[0], x, h, d);
      RunKeepsDue(Apply(n, run[0]), f, run[1..], n', x, h, d);
    }
  }

  // ----- exactly once -----

  ghost predicate NoneUnderWay(n: Net, d: Data)
  {
    forall a, b :: a in n.nodes && b in n.nodes[a].links ==> d !in n.nodes[a].links[b].data
  }

  lemma NothingUnderWay(nodes: map<GatewayId, Gateway>, hop: GatewayId -> GatewayId, d: Data)
    requires forall a, b :: a in nodes && b in nodes[a].links ==> d !in nodes[a].links[b].data
    ensures UnderWay(nodes, hop, d) == 0
  {
    SumZero(nodes.Keys, Queued(nodes, hop, d));
  }

  /** The copies that a push or a pull request puts on the way along `hop`. */
  lemma StartUnderWay(n: Net, at: GatewayId, s: LocalStep, hop: GatewayId -> GatewayId, d: Data)
    requires at in n.nodes && Begins(s, d)
    ensures UnderWay(Apply(n, Perform(at, s)).nodes, hop, d) == UnderWay(n.nodes, hop, d) +
            if s.scope == Global && hop(at) in Addressees(n.nodes[at], d) && hop(at) in n.nodes[at].links then 1 else 0
  {
    var g := Act(n.nodes[at], s);
    var targets := if s.scope == Global then Addressees(n.nodes[at], d) else {};
    assert n.nodes[at := g].Keys == n.nodes.Keys;
    StartSends(n.nodes[at], s, d);
    SentCopies(n.nodes[at], g, targets, d, hop(at), d);
    SumChange(n.nodes.Keys, Queued(n.nodes, hop, d), Queued(n.nodes[at := g], hop, d), at);
  }

  lemma StartSends(g: Gateway, s: LocalStep, d: Data)
    requires Begins(s, d)
    ensures Act(g, s).links == SendTo(g.links, if s.scope == Global then Addressees(g, d) else {}, d)
  {
    assert SendTo(g.links, {}, d) == g.links;
  }

  /** Right after the push, one more copy is on the way to every gateway that wants it. */
  lemma PushStarts(n: Net, f: Forest, at: GatewayId, s: LocalStep, x: GatewayId)
    requires Settled(n, f) && at in n.nodes && x in n.nodes
    requires s.DoPush? && s.scope == Global && GlobalHandlers(n.nodes[x].push, s.topic) != {}
    ensures UnderWay(Apply(n, Perform(at, s)).nodes, HopTo(f, x), Push(s.topic, s.body)) ==
            UnderWay(n.nodes, HopTo(f, x), Push(s.topic, s.body)) +
            if x != at && f.Joined(at, x) then 1 else 0
  {
    StartUnderWay(n, at, s, HopTo(f, x), Push(s.topic, s.body));
    if x != at && f.Joined(at, x) {
      ForwardsToward(n, f, at, x, s.topic);
    } else {
      LinksAreEdges(n, f, at, at);
    }
  }

  /** Who is to get a push by plugin `sender` of gateway `at`. */
  ghost predicate Recipient(n: Net, f: Forest, at: GatewayId, sender: Handle, topic: string, x: GatewayId, h: Handle)
    requires f.Acyclic() && at in n.nodes && x in n.nodes
  {
    if x == at then h != sender && exists s :: s in n.nodes[at].push && s.handler == h && s.topic <= topic
    else
      && f.Joined(at, x)
      && exists s :: s in n.nodes[x].push && s.handler == h && s.topic <= topic && s.scope == Global
  }

  /** The same for a push of any scope; a local one stays where it is. */
  ghost predicate Addressed(n: Net, f: Forest, at: GatewayId, s: LocalStep, x: GatewayId, h: Handle)
    requires f.Acyclic() && s.DoPush?
  {
    at in n.nodes && x in n.nodes && (s.scope == Global || x == at) && Recipient(n, f, at, s.h, s.topic, x, h)
  }

  lemma PushDelivers(g: Gateway, s: LocalStep, h: Handle)
    requires s.DoPush?
    ensures Act(g, s).delivered[Delivery(h, Push(s.topic, s.body))] == g.delivered[Delivery(h, Push(s.topic, s.body))]
            + (if h in MatchingHandlers(g.push, s.topic) - {s.h} then 1 else 0)
    ensures Act(g, s).push == g.push
  {
    var d := Push(s.topic, s.body);
    DeliveredCount(MatchingHandlers(g.push, s.topic) - {s.h}, d, h, d);
  }

  lemma DueAfterPush(n: Net, f: Forest, at: GatewayId, s: LocalStep, x: GatewayId, h: Handle)
    requires Settled(n, f) && at in n.nodes && x in n.nodes && s.DoPush?
    ensures x in Apply(n, Perform(at, s)).nodes
    ensures Due(Apply(n, Perform(at, s)), f, x, h, Push(s.topic, s.body)) ==
            Due(n, f, x, h, Push(s.topic, s.body)) + if Addressed(n, f, at, s, x, h) then 1 else 0
  {
    var n', d := Apply(n, Perform(at, s)), Push(s.topic, s.body);
    var here := if x == at && h in MatchingHandlers(n.nodes[at].push, s.topic) - {s.h} then 1 else 0;
    AddressedMeans(n, f, at, s, x, h);
    PushDelivers(n.nodes[at], s, h);
    assert n'.nodes[x].push == n.nodes[x].push;
    assert n'.nodes[x].delivered[Delivery(h, d)] == n.nodes[x].delivered[Delivery(h, d)] + here;
    if h in GlobalHandlers(n.nodes[x].push, s.topic) {
      GlobalMatches(n.nodes[x].push, s.topic, h);
      PushHeads(n, f, at, s, x);
    }
  }

  /** The same in terms of the plugins that are looked up. */
  lemma AddressedMeans(n: Net, f: Forest, at: GatewayId, s: LocalStep, x: GatewayId, h: Handle)
    requires f.Acyclic() && s.DoPush? && at in n.nodes && x in n.nodes
    ensures Addressed(n, f, at, s, x, h) <==>
            if x == at then h in MatchingHandlers(n.nodes[at].push, s.topic) - {s.h}
            else s.scope == Global && f.Joined(at, x) && h in GlobalHandlers(n.nodes[x].push, s.topic)
  {
  }

  lemma PushHeads(n: Net, f: Forest, at: GatewayId, s: LocalStep, x: GatewayId)
    requires Settled(n, f) && at in n.nodes && x in n.nodes
    requires s.DoPush? && GlobalHandlers(n.nodes[x].push, s.topic) != {}
    ensures UnderWay(Apply(n, Perform(at, s)).nodes, HopTo(f, x), Push(s.topic, s.body)) ==
            UnderWay(n.nodes, HopTo(f, x), Push(s.topic, s.body)) +
            if s.scope == Global && x != at && f.Joined(at, x) then 1 else 0
  {
    if s.scope == Global {
      PushStarts(n, f, at, s, x);
    } else {
      StartUnderWay(n, at, s, HopTo(f, x), Push(s.topic, s.body));
    }
  }

  lemma GlobalMatches(subs: seq<LocalSub>, topic: string, h: Handle)
    requires h in GlobalHandlers(subs, topic)
    ensures h in MatchingHandlers(subs, topic)
  {}

  /**
   A global push by plugin `s.h` of gateway `at`, once no copy is left under way, has been
   delivered exactly once to every other matching plugin of `at`, in any scope, and to
   every plugin elsewhere in the tree with a matching global subscription, and to nobody else.
   */
  lemma PushDeliveredOnce(n: Net, f: Forest, at: GatewayId, s: LocalStep, run: seq<Step>, n': Net, x: GatewayId,
                          h: Handle)
    requires Settled(n, f) && at in n.nodes && x in n.nodes
    requires s.DoPush? && s.scope == Global && NoneUnderWay(n, Push(s.topic, s.body))
    requires TrafficBut(run, Push(s.topic, s.body)) && Runs(Apply(n, Perform(at, s)), run, n')
    requires NoneUnderWay(n', Push(s.topic, s.body))
    ensures x in n'.nodes
    ensures n'.nodes[x].delivered[Delivery(h, Push(s.topic, s.body))] ==
            n.nodes[x].delivered[Delivery(h, Push(s.topic, s.body))] +
            if Recipient(n, f, at, s.h, s.topic, x, h) then 1 else 0
  {
    var d, n1 := Push(s.topic, s.body), Apply(n, Perform(at, s));
    TrafficKeepsSettled(n, f, Perform(at, s));
    DueAfterPush(n, f, at, s, x, h);
    RunKeepsDue(n1, f, run, n', x, h, d);
    DueIsDelivered(n, f, x, h, d);
    DueIsDelivered(n', f, x, h, d);
    assert Addressed(n, f, at, s, x, h) <==> Recipient(n, f, at, s.h, s.topic, x, h);
  }

  /** With no copy under way nothing is to come. */
  lemma DueIsDelivered(n: Net, f: Forest, x: GatewayId, h: Handle, d: Data)
    requires f.Acyclic() && x in n.nodes && d.Push? && NoneUnderWay(n, d)
    ensures Due(n, f, x, h, d) == n.nodes[x].delivered[Delivery(h, d)]
  {
    NothingUnderWay(n.nodes, HopTo(f, x), d);
  }

  /** The same for every run from the start that has come to rest on a tree. */
  lemma EveryPushDeliveredOnce(n0: Net, before: seq<Step>, n: Net, f: Forest, at: GatewayId, s: LocalStep,
                               run: seq<Step>, n': Net, x: GatewayId, h: Handle)
    requires Initial(n0) && Runs(n0, before, n) && TreeShaped(n, f) && Quiet(n)
    requires at in n.nodes && x in n.nodes
    requires s.DoPush? && s.scope == Global && NoneUnderWay(n, Push(s.topic, s.body))
    requires TrafficBut(run, Push(s.topic, s.body)) && Runs(Apply(n, Perform(at, s)), run, n')
    requires NoneUnderWay(n', Push(s.topic, s.body))
    ensures x in n'.nodes
    ensures n'.nodes[x].delivered[Delivery(h, Push(s.topic, s.body))] ==
            n.nodes[x].delivered[Delivery(h, Push(s.topic, s.body))] +
            if Recipient(n, f, at, s.h, s.topic, x, h) then 1 else 0
  {
    InitialGood(n0);
    RunKeepsGood(n0, before, n);
    PushDeliveredOnce(n, f, at, s, run, n', x, h);
  }

  // ----- forwarding ends -----

  /** Along each way, a delivery uses up a copy that has arrived and never adds one. */
  lemma DeliveryUsesUp(n: Net, f: Forest, from: GatewayId, to: GatewayId, i: nat, x: GatewayId, d: Data)
    requires TreeShaped(n, f) && Enabled(n, DeliverData(from, to, i)) && !d.PullResponse?
    ensures UnderWay(Apply(n, DeliverData(from, to, i)).nodes, HopTo(f, x), d) <=
            UnderWay(n.nodes, HopTo(f, x), d)
            - (if to == x && n.nodes[from].links[to].data[i] == d then 1 else 0)
  {
    MovedCopies(n, from, to, i, HopTo(f, x), d);
    WayAcross(n, f, from, to, x);
    HopToArrives(n, f, from, to);
  }

  /** Copies on the way to each gateway. */
  ghost function Heading(nodes: map<GatewayId, Gateway>, f: Forest, d: Data): GatewayId -> nat
    requires f.Acyclic()
  {
    x => UnderWay(nodes, HopTo(f, x), d)
  }

  ghost function Outstanding(n: Net, f: Forest, d: Data): nat
    requires f.Acyclic()
  {
    Sum(n.nodes.Keys, Heading(n.nodes, f, d))
  }

  ghost predicate Delivers(n: Net, s: Step, d: Data)
  {
    s.DeliverData? && Enabled(n, s) && n.nodes[s.from].links[s.to].data[s.i] == d
  }

  /** How many of the steps deliver a copy of `d`. */
  ghost function Forwards(n: Net, run: seq<Step>, n': Net, d: Data): nat
    requires Runs(n, run, n')
    decreases run
  {
    if run == [] then 0
    else (if Delivers(n, run[0], d) then 1 else 0) + Forwards(Apply(n, run[0]), run[1..], n', d)
  }

  lemma {:induction false} SumFalls(s: set<GatewayId>, v: GatewayId -> nat, w: GatewayId -> nat, y: GatewayId, k: nat)
    requires y in s && forall x :: x in s ==> w(x) <= v(x)
    requires w(y) + k <= v(y)
    ensures Sum(s, w) + k <= Sum(s, v)
  {
    SumStep(s, v, y);
    SumStep(s, w, y);
    SumBelow(s - {y}, w, v);
  }

  lemma {:induction false} SumBelow(s: set<GatewayId>, w: GatewayId -> nat, v: GatewayId -> nat)
    requires forall x :: x in s ==> w(x) <= v(x)
    ensures Sum(s, w) <= Sum(s, v)
  {
    if s != {} {
      var x :| x in s;
      SumBelow(s - {x}, w, v);
      SumStep(s, v, x);
      SumStep(s, w, x);
    }
  }

  /** Fewer copies head for `x`, at least by `k` if `x` is where one has arrived. */
  ghost predicate FallsAt(nodes: map<GatewayId, Gateway>, nodes': map<GatewayId, Gateway>, f: Forest, d: Data,
                          to: GatewayId, k: nat, x: GatewayId)
    requires f.Acyclic()
  {
    UnderWay(nodes', HopTo(f, x), d) + (if x == to then k else 0) <= UnderWay(nodes, HopTo(f, x), d)
  }

  lemma DeliveryOutstanding(n: Net, f: Forest, from: GatewayId, to: GatewayId, i: nat, d: Data)
    requires TreeShaped(n, f) && Enabled(n, DeliverData(from, to, i)) && !d.PullResponse?
    ensures Outstanding(Apply(n, DeliverData(from, to, i)), f, d)
            + (if n.nodes[from].links[to].data[i] == d then 1 else 0) <= Outstanding(n, f, d)
  {
    var k := if n.nodes[from].links[to].data[i] == d then 1 else 0;
    var nodes' := Apply(n, DeliverData(from, to, i)).nodes;
    DeliveryKeepsNodes(n, from, to, i);
    forall x: GatewayId ensures FallsAt(n.nodes, nodes', f, d, to, k, x) {
      DeliveryUsesUp(n, f, from, to, i, x, d);
    }
    HeadingFalls(n.nodes, nodes', f, d, to, k);
  }

  lemma HeadingFalls(nodes: map<GatewayId, Gateway>, nodes': map<GatewayId, Gateway>, f: Forest, d: Data, to: GatewayId,
                     k: nat)
    requires f.Acyclic() && to in nodes
    requires forall x: GatewayId :: FallsAt(nodes, nodes', f, d, to, k, x)
    ensures Sum(nodes.Keys, Heading(nodes', f, d)) + k <= Sum(nodes.Keys, Heading(nodes, f, d))
  {
    forall x | x in nodes.Keys ensures Heading(nodes', f, d)(x) <= Heading(nodes, f, d)(x) {
      assert FallsAt(nodes, nodes', f, d, to, k, x);
    }
    assert FallsAt(nodes, nodes', f, d, to, k, to);
    SumFalls(nodes.Keys, Heading(nodes, f, d), Heading(nodes', f, d), to, k);
  }

  lemma DeliveryKeepsNodes(n: Net, from: GatewayId, to: GatewayId, i: nat)
    requires Enabled(n, DeliverData(from, to, i))
    ensures Apply(n, DeliverData(from, to, i)).nodes.Keys == n.nodes.Keys
  {
  }

  lemma ActOutstanding(n: Net, f: Forest, at: GatewayId, s: LocalStep, d: Data)
    requires f.Acyclic() && at in n.nodes && !d.PullResponse? && IsTraffic(Perform(at, s)) && !Starts(Perform(at, s), d)
    ensures Outstanding(Apply(n, Perform(at, s)), f, d) == Outstanding(n, f, d)
  {
    TrafficKeepsControl(n, Perform(at, s));
    var n' := Apply(n, Perform(at, s));
    forall x | x in n.nodes.Keys ensures Heading(n'.nodes, f, d)(x) == Heading(n.nodes, f, d)(x) {
      OtherActsUnderWay(n, at, s, HopTo(f, x), d);
    }
    SumCongruent(n.nodes.Keys, Heading(n.nodes, f, d), Heading(n'.nodes, f, d));
  }

  lemma {:induction false} ForwardsBounded(n: Net, f: Forest, run: seq<Step>, n': Net, d: Data)
    requires Settled(n, f) && !d.PullResponse? && TrafficBut(run, d) && Runs(n, run, n')
    ensures Settled(n', f) && Forwards(n, run, n', d) + Outstanding(n', f, d) <= Outstanding(n, f, d)
    decreases run
  {
    if run != [] {
      assert run[0] in run && forall s :: s in run[1..] ==> s in run;
      TrafficKeepsSettled(n, f, run[0]);
      if run[0].Perform? {
        ActOutstanding(n, f, run[0].at, run[0].step, d);
      } else {
        DeliveryOutstanding(n, f, run[0].from, run[0].to, run[0].i, d);
      }
      ForwardsBounded(Apply(n, run[0]), f, run[1..], n', d);
    }
  }

  /** Right after the start at most one copy heads for each other gateway. */
  lemma AtMostOneHeading(n: Net, f: Forest, at: GatewayId, s: LocalStep, x: GatewayId, d: Data)
    requires TreeShaped(n, f) && at in n.nodes && Begins(s, d) && NoneUnderWay(n, d)
    ensures UnderWay(Apply(n, Perform(at, s)).nodes, HopTo(f, x), d) <= if x == at then 0 else 1
  {
    NothingUnderWay(n.nodes, HopTo(f, x), d);
    StartUnderWay(n, at, s, HopTo(f, x), d);
    LinksAreEdges(n, f, at, at);
  }

  lemma StartOutstanding(n: Net, f: Forest, at: GatewayId, s: LocalStep, d: Data)
    requires TreeShaped(n, f) && at in n.nodes && Begins(s, d) && NoneUnderWay(n, d)
    ensures Outstanding(Apply(n, Perform(at, s)), f, d) < |n.nodes|
  {
    var nodes' := Apply(n, Perform(at, s)).nodes;
    StepKeepsNodes(n, Perform(at, s));
    forall x ensures Heading(nodes', f, d)(x) <= if x == at then 0 else 1 { AtMostOneHeading(n, f, at, s, x, d); }
    AllButOne(n.nodes.Keys, at, Heading(nodes', f, d));
  }

  lemma AllButOne(v: set<GatewayId>, at: GatewayId, w: GatewayId -> nat)
    requires at in v && forall x :: w(x) <= if x == at then 0 else 1
    ensures Sum(v, w) < |v|
  {
    var one := (x: GatewayId) => if x == at then 0 else 1;
    SumBelow(v, w, one);
    SumStep(v, one, at);
    SumOfOnes(v - {at}, one);
  }

  /** Whatever else is going on, a push or pull request is forwarded over fewer links than there are gateways. */
  lemma ForwardingEnds(n: Net, f: Forest, at: GatewayId, s: LocalStep, run: seq<Step>, n': Net, d: Data)
    requires Settled(n, f) && at in n.nodes && Begins(s, d) && NoneUnderWay(n, d)
    requires TrafficBut(run, d) && Runs(Apply(n, Perform(at, s)), run, n')
    ensures Forwards(Apply(n, Perform(at, s)), run, n', d) < |n.nodes|
  {
    TrafficKeepsSettled(n, f, Perform(at, s));
    ForwardsBounded(Apply(n, Perform(at, s)), f, run, n', d);
    StartOutstanding(n, f, at, s, d);
  }
}
