/**
 Where pushes and pull requests go, told by the registrations of the gateways on each side
 of a link: at rest on a tree a copy takes every link that leads to a gateway with a
 matching global registration exactly once, and no other link.
 */
module Routing {
  import opened Sums
  import opened Topology
  import opened TreeSums
  import opened Tables
  import opened Network
  import opened Conservation
  import opened Flooding
  import opened PushDelivery
  import opened PushRuns
  import opened PullConservation

  /** A plugin of the gateway has registered, with global scope, for what `d` brings. */
  ghost predicate Wants(g: Gateway, d: Data)
  {
    match d
    case Push(topic, _) => exists s :: s in g.push && s.topic <= topic && s.scope == Global
    case PullRequest(_, topic, _) => exists s :: s in g.pull && s.topic == topic && s.scope == Global
    case PullResponse(_, _) => false
  }

  /** Some gateway on `b`'s side of the link between `a` and `b` wants `d`. */
  ghost predicate WantedBehind(n: Net, f: Forest, a: GatewayId, b: GatewayId, d: Data)
    requires f.Acyclic()
  {
    exists x :: x in f.Side(n.nodes.Keys, a, b) && Wants(n.nodes[x], d)
  }

  // ----- pull interests at rest -----

  ghost function PullWanted(g: Gateway, t: string): nat
  {
    Count(g.pull, IsGlobal(t))
  }

  ghost function PullWantedAt(n: Net, t: string): GatewayId -> nat
  {
    x => if x in n.nodes then PullWanted(n.nodes[x], t) else 0
  }

  lemma PullLinkAtRest(n: Net, f: Forest, a: GatewayId, b: GatewayId, t: string)
    requires TreeShaped(n, f) && PullsConserved(n) && Quiet(n) && f.Edge(a, b)
    ensures a in n.nodes && b in n.nodes && a in n.nodes[b].links
    ensures n.nodes[a].pulls[(t, b)] == PullDemand(n.nodes[b], t, a)
    ensures PullNeighbours(n.nodes[b].pulls, t) <= n.nodes[b].links.Keys
  {
    assert (a, b) in n.conns && (b, a) in n.conns;
    assert UpToDate(n, b) && f.Edge(b, a);
    LinksAreEdges(n, f, b, a);
    assert PullBalanced(n.nodes[b], n.nodes[a], b, a, t);
    assert NothingQueued(n.nodes[b]);
  }

  ghost predicate PullsBehind(n: Net, f: Forest, a: GatewayId, b: GatewayId, t: string)
    requires f.Acyclic()
  {
    a in n.nodes && n.nodes[a].pulls[(t, b)] == Sum(f.Side(n.nodes.Keys, a, b), PullWantedAt(n, t))
  }

  lemma OtherPullsTotal(n: Net, f: Forest, b: GatewayId, others: set<GatewayId>, t: string)
    requires f.Acyclic() && b in n.nodes
    requires forall k :: k in others ==> PullsBehind(n, f, b, k, t)
    ensures Sum(others, PullsFrom(n.nodes[b].pulls, t)) ==
            Sum(others, SideTotal(f, n.nodes.Keys, b, PullWantedAt(n, t)))
  {
    var u, w := PullsFrom(n.nodes[b].pulls, t), SideTotal(f, n.nodes.Keys, b, PullWantedAt(n, t));
    forall k | k in others ensures u(k) == w(k) { assert PullsBehind(n, f, b, k, t); }
    SumCongruent(others, u, w);
  }

  lemma PullDemandIsSide(n: Net, f: Forest, a: GatewayId, b: GatewayId, t: string)
    requires TreeShaped(n, f) && f.Edge(a, b) && b in n.nodes && a in n.nodes[b].links
    requires PullNeighbours(n.nodes[b].pulls, t) <= n.nodes[b].links.Keys
    requires forall k :: k in n.nodes[b].links.Keys - {a} ==> PullsBehind(n, f, b, k, t)
    ensures PullDemand(n.nodes[b], t, a) == Sum(f.Side(n.nodes.Keys, a, b), PullWantedAt(n, t))
  {
    var keys := n.nodes[b].links.Keys;
    OthersAmong(n.nodes[b].pulls, t, a, keys);
    OtherPullsTotal(n, f, b, keys - {a}, t);
    NeighboursOf(n, f, b);
    SideSum(f, n.nodes.Keys, a, b, keys, PullWantedAt(n, t));
  }

  /** Where pull interests are conserved, what is registered for a neighbour is the number of interests behind it. */
  lemma {:induction false} PullCountsAtRest(n: Net, f: Forest, a: GatewayId, b: GatewayId, t: string)
    requires TreeShaped(n, f) && PullsConserved(n) && Quiet(n) && f.Edge(a, b)
    ensures a in n.nodes && b in n.nodes
    ensures n.nodes[a].pulls[(t, b)] == Sum(f.Side(n.nodes.Keys, a, b), PullWantedAt(n, t))
    decreases |f.Side(n.nodes.Keys, a, b)|
  {
    PullLinkAtRest(n, f, a, b, t);
    forall k | k in n.nodes[b].links.Keys - {a} ensures PullsBehind(n, f, b, k, t) {
      LinksAreEdges(n, f, b, k);
      f.SideShrinks(n.nodes.Keys, a, b, k);
      Smaller(f.Side(n.nodes.Keys, b, k), f.Side(n.nodes.Keys, a, b));
      PullCountsAtRest(n, f, b, k, t);
    }
    PullDemandIsSide(n, f, a, b, t);
  }

  // ----- which links a copy is for -----

  /** Nothing but traffic is going on, and the tables that `d` is forwarded by are right. */
  ghost predicate Ready(n: Net, f: Forest, d: Data)
  {
    Settled(n, f) && !d.PullResponse? && (d.PullRequest? ==> PullsConserved(n))
  }

  lemma SomeoneCounted(n: Net, s: set<GatewayId>, w: GatewayId -> nat)
    ensures Sum(s, w) > 0 <==> exists x :: x in s && w(x) > 0
  {
    SumZero(s, w);
  }

  lemma PushIsForIff(n: Net, f: Forest, y: GatewayId, k: GatewayId, d: Data)
    requires Settled(n, f) && d.Push? && f.Edge(y, k) && y in n.nodes
    ensures k in NeighboursFor(n.nodes[y].subs, d.topic) <==> WantedBehind(n, f, y, k, d)
  {
    var side := f.Side(n.nodes.Keys, y, k);
    if k in NeighboursFor(n.nodes[y].subs, d.topic) {
      var e :| e in n.nodes[y].subs && e.topic <= d.topic && e.neighbour == k;
      CountPositive(n.nodes[y].subs, IsFrom(e.topic, k));
      CountsAtRest(n, f, y, k, e.topic);
      SomeoneCounted(n, side, WantedAt(n, e.topic));
      var x :| x in side && WantedAt(n, e.topic)(x) > 0;
      CountPositive(n.nodes[x].push, IsGlobal(e.topic));
      assert Wants(n.nodes[x], d);
    }
    if WantedBehind(n, f, y, k, d) {
      var x :| x in side && Wants(n.nodes[x], d);
      var s :| s in n.nodes[x].push && s.topic <= d.topic && s.scope == Global;
      CountPositive(n.nodes[x].push, IsGlobal(s.topic));
      assert WantedAt(n, s.topic)(x) > 0;
      SomeoneCounted(n, side, WantedAt(n, s.topic));
      CountsAtRest(n, f, y, k, s.topic);
      CountPositive(n.nodes[y].subs, IsFrom(s.topic, k));
    }
  }

  lemma RequestIsForIff(n: Net, f: Forest, y: GatewayId, k: GatewayId, d: Data)
    requires Settled(n, f) && PullsConserved(n) && d.PullRequest? && f.Edge(y, k) && y in n.nodes
    ensures k in PullNeighbours(n.nodes[y].pulls, d.topic) <==> WantedBehind(n, f, y, k, d)
  {
    PullCountsAtRest(n, f, y, k, d.topic);
    CountedIffWanted(n, f, y, k, d);
  }

  lemma CountedIffWanted(n: Net, f: Forest, y: GatewayId, k: GatewayId, d: Data)
    requires f.Acyclic() && d.PullRequest? && y in n.nodes
    requires n.nodes[y].pulls[(d.topic, k)] == Sum(f.Side(n.nodes.Keys, y, k), PullWantedAt(n, d.topic))
    ensures k in PullNeighbours(n.nodes[y].pulls, d.topic) <==> WantedBehind(n, f, y, k, d)
  {
    var side, t := f.Side(n.nodes.Keys, y, k), d.topic;
    SomeoneCounted(n, side, PullWantedAt(n, t));
    assert k in PullNeighbours(n.nodes[y].pulls, t) <==> (t, k) in n.nodes[y].pulls;
    forall x | x in side ensures PullWantedAt(n, t)(x) > 0 <==> Wants(n.nodes[x], d) {
      CountPositive(n.nodes[x].pull, IsGlobal(t));
    }
  }

  /** A neighbour is addressed exactly if somebody behind it has registered. */
  lemma AddressedIff(n: Net, f: Forest, y: GatewayId, k: GatewayId, d: Data)
    requires Ready(n, f, d) && y in n.nodes && k in n.nodes[y].links
    ensures k in Addressees(n.nodes[y], d) <==> WantedBehind(n, f, y, k, d)
  {
    LinksAreEdges(n, f, y, k);
    if d.Push? { PushIsForIff(n, f, y, k, d); } else { RequestIsForIff(n, f, y, k, d); }
  }

  /**
   A new push or pull request is queued for a neighbour, as one copy, exactly if it is global and
   somebody behind that neighbour wants it.
   */
  lemma StartQueuesIff(n: Net, f: Forest, at: GatewayId, s: LocalStep, k: GatewayId, d: Data)
    requires Ready(n, f, d) && at in n.nodes && k in n.nodes[at].links && Begins(s, d)
    ensures k in Apply(n, Perform(at, s)).nodes[at].links
    ensures Apply(n, Perform(at, s)).nodes[at].links[k].data == n.nodes[at].links[k].data +
            if s.scope == Global && WantedBehind(n, f, at, k, d) then [d] else []
  {
    AddressedIff(n, f, at, k, d);
    StartQueues(n.nodes[at], s, k, d);
  }

  lemma StartQueues(g: Gateway, s: LocalStep, k: GatewayId, d: Data)
    requires k in g.links && Begins(s, d)
    ensures k in Act(g, s).links
    ensures Act(g, s).links[k].data == g.links[k].data +
            if s.scope == Global && k in Addressees(g, d) then [d] else []
  {
    StartSends(g, s, d);
  }

  /** One that arrives is queued for each other neighbour exactly if somebody behind that one wants it. */
  lemma ArrivalQueuesIff(n: Net, f: Forest, from: GatewayId, to: GatewayId, i: nat, k: GatewayId, d: Data)
    requires Ready(n, f, d) && Enabled(n, DeliverData(from, to, i)) && n.nodes[from].links[to].data[i] == d
    requires k in n.nodes[to].links
    ensures k in Apply(n, DeliverData(from, to, i)).nodes[to].links
    ensures Apply(n, DeliverData(from, to, i)).nodes[to].links[k].data == n.nodes[to].links[k].data +
            if k != from && WantedBehind(n, f, to, k, d) then [d] else []
  {
    AddressedIff(n, f, to, k, d);
    ArrivalQueues(n, from, to, i, k);
  }

  lemma ArrivalQueues(n: Net, from: GatewayId, to: GatewayId, i: nat, k: GatewayId)
    requires Enabled(n, DeliverData(from, to, i)) && !n.nodes[from].links[to].data[i].PullResponse?
    requires k in n.nodes[to].links
    ensures k in Apply(n, DeliverData(from, to, i)).nodes[to].links
    ensures var d := n.nodes[from].links[to].data[i];
            Apply(n, DeliverData(from, to, i)).nodes[to].links[k].data == n.nodes[to].links[k].data +
            if k != from && k in Addressees(n.nodes[to], d) then [d] else []
  {
    ReceivedSends(n.nodes[to], from, n.nodes[from].links[to].data[i]);
  }

  /** What is pushed or asked for with local scope changes no neighbour's queue. */
  lemma LocalStays(n: Net, at: GatewayId, s: LocalStep)
    requires at in n.nodes && (s.DoPush? || s.DoPull?) && s.scope == Local
    ensures Apply(n, Perform(at, s)).nodes[at].links == n.nodes[at].links
  {
  }

  // ----- traffic keeps the registrations -----

  lemma ActKeepsPull(g: Gateway, s: LocalStep)
    requires s.DoPush? || s.DoPull? || s.DoAnswer? || s.DoForget?
    ensures Act(g, s).push == g.push && Act(g, s).pull == g.pull
  {
  }

  lemma TrafficKeepsEntries(n: Net, s: Step)
    requires IsTraffic(s) && Enabled(n, s)
    ensures Apply(n, s).nodes.Keys == n.nodes.Keys
    ensures forall x :: x in n.nodes ==>
      Apply(n, s).nodes[x].push == n.nodes[x].push && Apply(n, s).nodes[x].pull == n.nodes[x].pull
  {
    if s.Perform? {
      ActKeepsPull(n.nodes[s.at], s.step);
    } else {
      ReceiveDataKeepsPulls(n.nodes[s.to], s.from, n.nodes[s.from].links[s.to].data[s.i]);
    }
  }

  lemma TrafficKeepsReady(n: Net, f: Forest, s: Step, d: Data)
    requires Ready(n, f, d) && IsTraffic(s) && Enabled(n, s)
    ensures Ready(Apply(n, s), f, d)
  {
    TrafficKeepsSettled(n, f, s);
    if d.PullRequest? {
      if s.Perform? { ActConservesPulls(n, s.at, s.step); } else { DataConservesPulls(n, s.from, s.to, s.i); }
    }
  }

  lemma TrafficKeepsWanted(n: Net, f: Forest, s: Step, a: GatewayId, b: GatewayId, d: Data)
    requires f.Acyclic() && IsTraffic(s) && Enabled(n, s)
    ensures WantedBehind(Apply(n, s), f, a, b, d) <==> WantedBehind(n, f, a, b, d)
  {
    TrafficKeepsEntries(n, s);
    var n' := Apply(n, s);
    forall x | x in n.nodes ensures Wants(n'.nodes[x], d) <==> Wants(n.nodes[x], d) {}
  }

  // ----- copies over one link -----

  ghost predicate Carries(n: Net, s: Step, a: GatewayId, b: GatewayId, d: Data)
  {
    Delivers(n, s, d) && s.from == a && s.to == b
  }

  /** How many copies of `d` the run hands over from `a` to `b`. */
  ghost function Carried(n: Net, run: seq<Step>, n': Net, a: GatewayId, b: GatewayId, d: Data): nat
    requires Runs(n, run, n')
    decreases run
  {
    if run == [] then 0
    else (if Carries(n, run[0], a, b, d) then 1 else 0) + Carried(Apply(n, run[0]), run[1..], n', a, b, d)
  }

  /** A global push or request `d` that is made on `a`'s side of the link between `a` and `b`. */
  ghost function StartsBefore(f: Forest, a: GatewayId, b: GatewayId, d: Data): Step -> bool
    requires f.Acyclic()
  {
    (s: Step) => s.Perform? && Begins(s.step, d) && s.step.scope == Global && f.Behind(b, a, s.at)
  }

  /** The way to `x` from the gateways of `a`'s side. */
  ghost function Across(f: Forest, a: GatewayId, b: GatewayId, x: GatewayId): GatewayId -> GatewayId
    requires f.Acyclic()
  {
    y => if f.Behind(b, a, y) then HopTo(f, x)(y) else y
  }

  /** Each delivery leads along this way, over the link at its end, or not at all. */
  ghost predicate AlongOrAway(hop: GatewayId -> GatewayId, a: GatewayId, b: GatewayId, from: GatewayId, to: GatewayId)
  {
    if from == a && to == b then hop(from) == to && hop(to) == to
    else if hop(from) == to then hop(to) != from && hop(to) != to
    else hop(to) == from || hop(to) == to
  }

  lemma AcrossWay(n: Net, f: Forest, a: GatewayId, b: GatewayId, x: GatewayId, from: GatewayId, to: GatewayId)
    requires TreeShaped(n, f) && f.Edge(a, b) && f.Behind(a, b, x) && Open(n, from, to)
    ensures AlongOrAway(Across(f, a, b, x), a, b, from, to)
  {
    LinksAreEdges(n, f, from, to);
    WayAcross(n, f, from, to, x);
    AcrossEdge(f, a, b, x, from, to);
  }

  lemma AcrossEdge(f: Forest, a: GatewayId, b: GatewayId, x: GatewayId, from: GatewayId, to: GatewayId)
    requires f.Acyclic() && f.Edge(a, b) && f.Behind(a, b, x) && f.Edge(from, to) && from != to
    requires HopTo(f, x)(from) == to ==> to == x || (HopTo(f, x)(to) != from && HopTo(f, x)(to) != to)
    requires HopTo(f, x)(from) != to ==> HopTo(f, x)(to) == from || HopTo(f, x)(to) == to
    ensures AlongOrAway(Across(f, a, b, x), a, b, from, to)
  {
    f.SideSplits(b, a, a);
    if f.Behind(b, a, from) && f.Behind(b, a, to) {
      OtherSide(f, a, b, x, to);
    } else if f.Behind(b, a, from) {
      f.OnlyCrossing(a, b, from, to);
    } else if f.Behind(b, a, to) {
      f.OnlyCrossing(a, b, to, from);
    }
  }

  lemma OtherSide(f: Forest, a: GatewayId, b: GatewayId, x: GatewayId, y: GatewayId)
    requires f.Acyclic() && f.Edge(a, b) && f.Behind(a, b, x) && f.Behind(b, a, y)
    ensures x != y && f.Joined(y, x) && Across(f, a, b, x)(y) == f.Hop(y, x) && f.Edge(y, f.Hop(y, x))
  {
    f.LinkSplits(a, b, x);
    f.LinkSplits(b, a, y);
    assert HopTo(f, x)(y) == f.Hop(y, x);
  }

  /** On the way to a gateway that wants it, an arriving copy is passed on until it is over the link. */
  lemma PassedOnAcross(n: Net, f: Forest, a: GatewayId, b: GatewayId, x: GatewayId, from: GatewayId, to: GatewayId,
                       d: Data)
    requires Ready(n, f, d) && f.Edge(a, b) && x in f.Side(n.nodes.Keys, a, b) && Wants(n.nodes[x], d)
    requires Open(n, from, to)
    ensures var hop := Across(f, a, b, x);
            hop(to) in Onward(n.nodes[to], from, d) && hop(to) in n.nodes[to].links <==>
            hop(to) != from && hop(to) != to
  {
    var k := Across(f, a, b, x)(to);
    OnwardIff(n.nodes[to], from, d, k);
    LinksAreEdges(n, f, to, to);
    if k != to { LeadsOn(n, f, a, b, x, to, d); }
  }

  /** The next gateway on the way is addressed. */
  lemma LeadsOn(n: Net, f: Forest, a: GatewayId, b: GatewayId, x: GatewayId, y: GatewayId, d: Data)
    requires Ready(n, f, d) && f.Edge(a, b) && x in f.Side(n.nodes.Keys, a, b) && Wants(n.nodes[x], d)
    requires y in n.nodes && f.Behind(b, a, y)
    ensures Across(f, a, b, x)(y) in n.nodes[y].links && Across(f, a, b, x)(y) in Addressees(n.nodes[y], d)
  {
    OtherSide(f, a, b, x, y);
    var k := f.Hop(y, x);
    LinksAreEdges(n, f, y, k);
    assert x in f.Side(n.nodes.Keys, y, k);
    AddressedIff(n, f, y, k, d);
  }

  lemma DeliveryAcross(n: Net, f: Forest, from: GatewayId, to: GatewayId, i: nat, a: GatewayId, b: GatewayId,
                       x: GatewayId, d: Data)
    requires Ready(n, f, d) && f.Edge(a, b) && x in f.Side(n.nodes.Keys, a, b) && Wants(n.nodes[x], d)
    requires Enabled(n, DeliverData(from, to, i))
    ensures UnderWay(Apply(n, DeliverData(from, to, i)).nodes, Across(f, a, b, x), d) ==
            UnderWay(n.nodes, Across(f, a, b, x), d) - if Carries(n, DeliverData(from, to, i), a, b, d) then 1 else 0
  {
    MovedCopies(n, from, to, i, Across(f, a, b, x), d);
    AcrossWay(n, f, a, b, x, from, to);
    PassedOnAcross(n, f, a, b, x, from, to, d);
  }

  lemma StartAcross(n: Net, f: Forest, at: GatewayId, s: LocalStep, a: GatewayId, b: GatewayId, x: GatewayId, d: Data)
    requires Ready(n, f, d) && f.Edge(a, b) && x in f.Side(n.nodes.Keys, a, b) && Wants(n.nodes[x], d)
    requires at in n.nodes && Begins(s, d)
    ensures UnderWay(Apply(n, Perform(at, s)).nodes, Across(f, a, b, x), d) ==
            UnderWay(n.nodes, Across(f, a, b, x), d) + if StartsBefore(f, a, b, d)(Perform(at, s)) then 1 else 0
  {
    StartUnderWay(n, at, s, Across(f, a, b, x), d);
    if f.Behind(b, a, at) { LeadsOn(n, f, a, b, x, at, d); } else { LinksAreEdges(n, f, at, at); }
  }

  lemma StepAcross(n: Net, f: Forest, s: Step, a: GatewayId, b: GatewayId, x: GatewayId, d: Data)
    requires Ready(n, f, d) && f.Edge(a, b) && x in f.Side(n.nodes.Keys, a, b) && Wants(n.nodes[x], d)
    requires IsTraffic(s) && Enabled(n, s)
    ensures UnderWay(Apply(n, s).nodes, Across(f, a, b, x), d) + (if Carries(n, s, a, b, d) then 1 else 0) ==
            UnderWay(n.nodes, Across(f, a, b, x), d) + if StartsBefore(f, a, b, d)(s) then 1 else 0
  {
    if s.DeliverData? {
      DeliveryAcross(n, f, s.from, s.to, s.i, a, b, x, d);
    } else if Begins(s.step, d) {
      StartAcross(n, f, s.at, s.step, a, b, x, d);
    } else {
      OtherActsUnderWay(n, s.at, s.step, Across(f, a, b, x), d);
    }
  }

  /** What is made on this side has been carried over the link or is on the way to it. */
  lemma {:induction false} RunAcross(n: Net, f: Forest, run: seq<Step>, n': Net, a: GatewayId, b: GatewayId,
                                     x: GatewayId, d: Data)
    requires Ready(n, f, d) && f.Edge(a, b) && x in f.Side(n.nodes.Keys, a, b) && Wants(n.nodes[x], d)
    requires AllTraffic(run) && Runs(n, run, n')
    ensures UnderWay(n'.nodes, Across(f, a, b, x), d) + Carried(n, run, n', a, b, d) ==
            UnderWay(n.nodes, Across(f, a, b, x), d) + Count(run, StartsBefore(f, a, b, d))
    decreases run
  {
    if run != [] {
      RestIsTraffic(run);
      StepAcross(n, f, run[0], a, b, x, d);
      TrafficKeepsReady(n, f, run[0], d);
      TrafficKeepsEntries(n, run[0]);
      RunAcross(Apply(n, run[0]), f, run[1..], n', a, b, x, d);
    }
  }

  // ----- links that lead to nobody who wants it -----

  ghost function Onto(a: GatewayId, b: GatewayId): GatewayId -> GatewayId
  {
    y => if y == a then b else y
  }

  lemma StepStaysOff(n: Net, f: Forest, s: Step, a: GatewayId, b: GatewayId, d: Data)
    requires Ready(n, f, d) && f.Edge(a, b) && a in n.nodes && !WantedBehind(n, f, a, b, d)
    requires IsTraffic(s) && Enabled(n, s)
    ensures UnderWay(Apply(n, s).nodes, Onto(a, b), d) + (if Carries(n, s, a, b, d) then 1 else 0) ==
            UnderWay(n.nodes, Onto(a, b), d)
  {
    LinksAreEdges(n, f, a, b);
    AddressedIff(n, f, a, b, d);
    if s.DeliverData? {
      MovedCopies(n, s.from, s.to, s.i, Onto(a, b), d);
      LinksAreEdges(n, f, s.to, s.to);
    } else if Begins(s.step, d) {
      StartUnderWay(n, s.at, s.step, Onto(a, b), d);
      LinksAreEdges(n, f, s.at, s.at);
    } else {
      OtherActsUnderWay(n, s.at, s.step, Onto(a, b), d);
    }
  }

  lemma {:induction false} RunStaysOff(n: Net, f: Forest, run: seq<Step>, n': Net, a: GatewayId, b: GatewayId, d: Data)
    requires Ready(n, f, d) && f.Edge(a, b) && a in n.nodes && !WantedBehind(n, f, a, b, d)
    requires AllTraffic(run) && Runs(n, run, n')
    ensures UnderWay(n'.nodes, Onto(a, b), d) + Carried(n, run, n', a, b, d) == UnderWay(n.nodes, Onto(a, b), d)
    decreases run
  {
    if run != [] {
      RestIsTraffic(run);
      StepStaysOff(n, f, run[0], a, b, d);
      TrafficKeepsReady(n, f, run[0], d);
      TrafficKeepsEntries(n, run[0]);
      TrafficKeepsWanted(n, f, run[0], a, b, d);
      RunStaysOff(Apply(n, run[0]), f, run[1..], n', a, b, d);
    }
  }

  /** What the link between `a` and `b` is to carry of `d` in the run. */
  ghost function ToCarry(n: Net, f: Forest, run: seq<Step>, a: GatewayId, b: GatewayId, d: Data): nat
    requires f.Acyclic()
  {
    if WantedBehind(n, f, a, b, d) then Count(run, StartsBefore(f, a, b, d)) else 0
  }

  lemma LinkBalance(n: Net, f: Forest, run: seq<Step>, n': Net, a: GatewayId, b: GatewayId, d: Data)
    returns (hop: GatewayId -> GatewayId)
    requires Ready(n, f, d) && f.Edge(a, b) && a in n.nodes && AllTraffic(run) && Runs(n, run, n')
    ensures UnderWay(n'.nodes, hop, d) + Carried(n, run, n', a, b, d) ==
            UnderWay(n.nodes, hop, d) + ToCarry(n, f, run, a, b, d)
  {
    if x :| x in f.Side(n.nodes.Keys, a, b) && Wants(n.nodes[x], d) {
      hop := Across(f, a, b, x);
      RunAcross(n, f, run, n', a, b, x, d);
    } else {
      hop := Onto(a, b);
      RunStaysOff(n, f, run, n', a, b, d);
    }
  }

  lemma LinkCarries(n: Net, f: Forest, run: seq<Step>, n': Net, a: GatewayId, b: GatewayId, d: Data)
    requires Ready(n, f, d) && f.Edge(a, b) && a in n.nodes && AllTraffic(run) && Runs(n, run, n')
    requires NoneUnderWay(n, d) && NoneUnderWay(n', d)
    ensures Carried(n, run, n', a, b, d) == ToCarry(n, f, run, a, b, d)
  {
    var hop := LinkBalance(n, f, run, n', a, b, d);
    NoneAlong(n, n', hop, d);
  }

  lemma NoneAlong(n: Net, n': Net, hop: GatewayId -> GatewayId, d: Data)
    requires NoneUnderWay(n, d) && NoneUnderWay(n', d)
    ensures UnderWay(n.nodes, hop, d) == 0 && UnderWay(n'.nodes, hop, d) == 0
  {
    NothingUnderWay(n.nodes, hop, d);
    NothingUnderWay(n'.nodes, hop, d);
  }

  // ----- pull requests handed to plugins -----

  /** The registrations of plugin `h` for pull requests of exactly `topic`. */
  ghost function MadeBy(topic: string, h: Handle): LocalSub -> bool
  {
    (s: LocalSub) => s.topic == topic && s.handler == h
  }

  lemma {:induction false} PullDeliveriesCount(pull: seq<LocalSub>, topic: string, sender: set<Handle>, d: Data,
                                               h: Handle)
    ensures PullDeliveries(pull, topic, sender, d)[Delivery(h, d)] ==
            if h in sender then 0 else Count(pull, MadeBy(topic, h))
  {
    if pull != [] { PullDeliveriesCount(pull[1..], topic, sender, d, h); }
  }

  lemma RequestHanded(pull: seq<LocalSub>, topic: string, sender: set<Handle>, e: Data, h: Handle, d: Data)
    ensures PullDeliveries(pull, topic, sender, e)[Delivery(h, d)] ==
            if e == d && h !in sender then Count(pull, MadeBy(topic, h)) else 0
  {
    if e == d {
      PullDeliveriesCount(pull, topic, sender, d, h);
    } else {
      NotInPullDeliveries(pull, topic, sender, e, h, d);
    }
  }

  ghost predicate ArrivesAt(n: Net, s: Step, x: GatewayId, d: Data)
  {
    Delivers(n, s, d) && s.to == x
  }

  ghost function Arrivals(n: Net, run: seq<Step>, n': Net, x: GatewayId, d: Data): nat
    requires Runs(n, run, n')
    decreases run
  {
    if run == [] then 0
    else (if ArrivesAt(n, run[0], x, d) then 1 else 0) + Arrivals(Apply(n, run[0]), run[1..], n', x, d)
  }

  /** Another plugin of `x` itself asks. */
  ghost function AskedHere(x: GatewayId, h: Handle, d: Data): Step -> bool
  {
    (s: Step) => s.Perform? && Begins(s.step, d) && s.at == x && s.step.h != h
  }

  /** Somebody elsewhere asks, and `x` is on a way from there to a gateway that wants to be asked. */
  ghost function AskedAfar(n: Net, f: Forest, x: GatewayId, d: Data): Step -> bool
    requires f.Acyclic()
  {
    (s: Step) => s.Perform? && Begins(s.step, d) && s.at != x && s.step.scope == Global && f.Joined(x, s.at)
      && WantedBehind(n, f, f.Hop(x, s.at), x, d)
  }

  /** One that is to be handed to the registrations of plugin `h` of `x`. */
  ghost function AskedOf(n: Net, f: Forest, x: GatewayId, h: Handle, d: Data): Step -> bool
    requires f.Acyclic()
  {
    (s: Step) => s.Perform? && Begins(s.step, d) &&
      if s.at == x then s.step.h != h
      else s.step.scope == Global && f.Joined(x, s.at) && WantedBehind(n, f, f.Hop(x, s.at), x, d)
  }

  lemma ActHands(g: Gateway, s: LocalStep, h: Handle, d: Data)
    requires d.PullRequest? && (s.DoPush? || s.DoPull? || s.DoAnswer? || s.DoForget?)
    ensures Act(g, s).delivered[Delivery(h, d)] == g.delivered[Delivery(h, d)] +
            if Begins(s, d) && s.h != h then Count(g.pull, MadeBy(d.topic, h)) else 0
  {
    if Begins(s, d) {
      RequestHanded(g.pull, d.topic, {s.h}, d, h, d);
    } else {
      OtherActs(g, s, GatewayId(""), h, d);
    }
  }

  lemma ReceiveHands(g: Gateway, from: GatewayId, e: Data, h: Handle, d: Data)
    requires d.PullRequest?
    ensures ReceiveData(g, from, e).delivered[Delivery(h, d)] == g.delivered[Delivery(h, d)] +
            if e == d then Count(g.pull, MadeBy(d.topic, h)) else 0
  {
    match e
    case Push(topic, _) => DeliveredCount(GlobalHandlers(g.push, topic), e, h, d);
    case PullRequest(_, topic, _) =>
      RequestHanded(g.pull, topic, {}, e, h, d);
    case PullResponse(_, _) =>
  }

  lemma StepHands(n: Net, s: Step, x: GatewayId, h: Handle, d: Data)
    requires IsTraffic(s) && Enabled(n, s) && d.PullRequest? && x in n.nodes
    ensures x in Apply(n, s).nodes && Apply(n, s).nodes[x].pull == n.nodes[x].pull
    ensures Apply(n, s).nodes[x].delivered[Delivery(h, d)] == n.nodes[x].delivered[Delivery(h, d)] +
            if ArrivesAt(n, s, x, d) || AskedHere(x, h, d)(s) then Count(n.nodes[x].pull, MadeBy(d.topic, h)) else 0
  {
    TrafficKeepsEntries(n, s);
    if s.Perform? {
      ActHands(n.nodes[s.at], s.step, h, d);
    } else {
      ReceiveHands(n.nodes[s.to], s.from, n.nodes[s.from].links[s.to].data[s.i], h, d);
    }
  }

  /** How often the run hands `d` to each registration of plugin `h` of `x`. */
  ghost function TimesHanded(n: Net, run: seq<Step>, n': Net, x: GatewayId, h: Handle, d: Data): nat
    requires Runs(n, run, n')
  {
    Arrivals(n, run, n', x, d) + Count(run, AskedHere(x, h, d))
  }

  lemma OneStepHands(n: Net, run: seq<Step>, n': Net, x: GatewayId, h: Handle, d: Data)
    requires run != [] && Runs(n, run, n')
    ensures TimesHanded(n, run, n', x, h, d) == TimesHanded(Apply(n, run[0]), run[1..], n', x, h, d) +
            if ArrivesAt(n, run[0], x, d) || AskedHere(x, h, d)(run[0]) then 1 else 0
  {
  }

  /** `c` for each of `k` times. */
  ghost function EachTime(c: nat, k: nat): nat
  {
    if k == 0 then 0 else c + EachTime(c, k - 1)
  }

  lemma {:induction false} EachTimeIsProduct(c: nat, k: nat)
    ensures EachTime(c, k) == c * k
  {
    if k > 0 {
      EachTimeIsProduct(c, k - 1);
      assert c * k == c * (k - 1) + c;
    }
  }

  lemma HandedSum(before: nat, mid: nat, after: nat, c: nat, once: bool, rest: nat)
    requires mid == before + (if once then c else 0) && after == mid + EachTime(c, rest)
    ensures after == before + EachTime(c, rest + if once then 1 else 0)
  {
  }

  /** Whatever the order of the steps, each registration is handed every request that comes to its gateway. */
  lemma {:induction false} RunHands(n: Net, run: seq<Step>, n': Net, x: GatewayId, h: Handle, d: Data)
    requires AllTraffic(run) && Runs(n, run, n') && d.PullRequest? && x in n.nodes
    ensures x in n'.nodes
    ensures n'.nodes[x].delivered[Delivery(h, d)] == n.nodes[x].delivered[Delivery(h, d)] +
            EachTime(Count(n.nodes[x].pull, MadeBy(d.topic, h)), TimesHanded(n, run, n', x, h, d))
    decreases run
  {
    if run != [] {
      RestIsTraffic(run);
      var n1, y := Apply(n, run[0]), Delivery(h, d);
      StepHands(n, run[0], x, h, d);
      RunHands(n1, run[1..], n', x, h, d);
      OneStepHands(n, run, n', x, h, d);
      HandedSum(n.nodes[x].delivered[y], n1.nodes[x].delivered[y], n'.nodes[x].delivered[y],
                Count(n.nodes[x].pull, MadeBy(d.topic, h)), ArrivesAt(n, run[0], x, d) || AskedHere(x, h, d)(run[0]),
                TimesHanded(n1, run[1..], n', x, h, d));
    }
  }

  ghost function CarriedTo(n: Net, run: seq<Step>, n': Net, x: GatewayId, d: Data): GatewayId -> nat
    requires Runs(n, run, n')
  {
    k => Carried(n, run, n', k, x, d)
  }

  /** `ks` has every gateway with a connection to `x`. */
  ghost predicate Callers(n: Net, x: GatewayId, ks: set<GatewayId>)
  {
    forall y :: y in n.nodes && x in n.nodes[y].links ==> y in ks
  }

  lemma NeighboursCall(n: Net, f: Forest, x: GatewayId, ks: set<GatewayId>)
    requires TreeShaped(n, f) && Neighbours(f, x, ks)
    ensures Callers(n, x, ks)
  {
    forall y | y in n.nodes && x in n.nodes[y].links ensures y in ks {
      LinksAreEdges(n, f, y, x);
      assert f.Edge(x, y);
    }
  }

  lemma TrafficKeepsCallers(n: Net, s: Step, x: GatewayId, ks: set<GatewayId>)
    requires Callers(n, x, ks) && IsTraffic(s) && Enabled(n, s)
    ensures Callers(Apply(n, s), x, ks)
  {
    PushDelivery.TrafficKeepsControl(n, s);
    var n' := Apply(n, s);
    forall y | y in n'.nodes && x in n'.nodes[y].links ensures y in ks {
      assert SameControl(n.nodes[y], n'.nodes[y]) && x in n'.nodes[y].links.Keys;
    }
  }

  /** What arrives comes over one of the links. */
  lemma {:induction false} ArrivalsByLink(n: Net, run: seq<Step>, n': Net, x: GatewayId, ks: set<GatewayId>, d: Data)
    requires Callers(n, x, ks) && AllTraffic(run) && Runs(n, run, n')
    ensures Arrivals(n, run, n', x, d) == Sum(ks, CarriedTo(n, run, n', x, d))
    decreases run
  {
    if run == [] {
      SumZero(ks, CarriedTo(n, run, n', x, d));
    } else {
      RestIsTraffic(run);
      TrafficKeepsCallers(n, run[0], x, ks);
      ArrivalsByLink(Apply(n, run[0]), run[1..], n', x, ks, d);
      OneArrival(n, run, n', x, ks, d);
    }
  }

  lemma OneArrival(n: Net, run: seq<Step>, n': Net, x: GatewayId, ks: set<GatewayId>, d: Data)
    requires run != [] && Runs(n, run, n') && Callers(n, x, ks)
    ensures Sum(ks, CarriedTo(n, run, n', x, d)) ==
            Sum(ks, CarriedTo(Apply(n, run[0]), run[1..], n', x, d)) + if ArrivesAt(n, run[0], x, d) then 1 else 0
  {
    var v, w := CarriedTo(Apply(n, run[0]), run[1..], n', x, d), CarriedTo(n, run, n', x, d);
    if ArrivesAt(n, run[0], x, d) { SumChange(ks, v, w, run[0].from); } else { SumCongruent(ks, v, w); }
  }

  ghost function ToCarryTo(n: Net, f: Forest, run: seq<Step>, x: GatewayId, d: Data): GatewayId -> nat
    requires f.Acyclic()
  {
    k => ToCarry(n, f, run, k, x, d)
  }

  /** Every request from elsewhere comes over the link that leads back to where it was made. */
  lemma {:induction false} AfarByLink(n: Net, f: Forest, run: seq<Step>, x: GatewayId, ks: set<GatewayId>, d: Data)
    requires f.Acyclic() && Neighbours(f, x, ks)
    ensures Sum(ks, ToCarryTo(n, f, run, x, d)) == Count(run, AskedAfar(n, f, x, d))
  {
    var w := ToCarryTo(n, f, run, x, d);
    if run == [] {
      SumZero(ks, w);
    } else {
      AfarByLink(n, f, run[1..], x, ks, d);
      var v := ToCarryTo(n, f, run[1..], x, d);
      if AskedAfar(n, f, x, d)(run[0]) {
        var k := f.Hop(x, run[0].at);
        SumChange(ks, v, w, k);
      } else {
        SumCongruent(ks, v, w);
      }
    }
  }

  lemma ArrivalsAreAfar(n: Net, f: Forest, run: seq<Step>, n': Net, x: GatewayId, d: Data)
    requires Ready(n, f, d) && x in n.nodes && AllTraffic(run) && Runs(n, run, n')
    requires NoneUnderWay(n, d) && NoneUnderWay(n', d)
    ensures Arrivals(n, run, n', x, d) == Count(run, AskedAfar(n, f, x, d))
  {
    var ks := n.nodes[x].links.Keys;
    NeighboursOf(n, f, x);
    NeighboursCall(n, f, x, ks);
    ArrivalsByLink(n, run, n', x, ks, d);
    forall k | k in ks ensures CarriedTo(n, run, n', x, d)(k) == ToCarryTo(n, f, run, x, d)(k) {
      LinksAreEdges(n, f, x, k);
      LinkCarries(n, f, run, n', k, x, d);
    }
    SumCongruent(ks, CarriedTo(n, run, n', x, d), ToCarryTo(n, f, run, x, d));
    AfarByLink(n, f, run, x, ks, d);
  }

  lemma AskedSplits(n: Net, f: Forest, run: seq<Step>, x: GatewayId, h: Handle, d: Data)
    requires f.Acyclic()
    ensures Count(run, AskedOf(n, f, x, h, d)) == Count(run, AskedAfar(n, f, x, d)) + Count(run, AskedHere(x, h, d))
  {
    CountEither(run, AskedAfar(n, f, x, d), AskedHere(x, h, d), AskedOf(n, f, x, h, d));
  }

  lemma RequestsHanded(n: Net, f: Forest, run: seq<Step>, n': Net, d: Data, x: GatewayId, h: Handle)
    requires Ready(n, f, d) && d.PullRequest? && x in n.nodes && AllTraffic(run) && Runs(n, run, n')
    requires NoneUnderWay(n, d) && NoneUnderWay(n', d)
    ensures TimesHanded(n, run, n', x, h, d) == Count(run, AskedOf(n, f, x, h, d))
  {
    ArrivalsAreAfar(n, f, run, n', x, d);
    AskedSplits(n, f, run, x, h, d);
  }

  lemma HandedAsAsked(n: Net, run: seq<Step>, n': Net, d: Data, x: GatewayId, h: Handle, asked: Step -> bool)
    requires AllTraffic(run) && Runs(n, run, n') && d.PullRequest? && x in n.nodes
    requires TimesHanded(n, run, n', x, h, d) == Count(run, asked)
    ensures x in n'.nodes
    ensures n'.nodes[x].delivered[Delivery(h, d)] == n.nodes[x].delivered[Delivery(h, d)] +
            Count(n.nodes[x].pull, MadeBy(d.topic, h)) * Count(run, asked)
  {
    RunHands(n, run, n', x, h, d);
    EachTimeIsProduct(Count(n.nodes[x].pull, MadeBy(d.topic, h)), Count(run, asked));
  }

  // ----- from the start -----

  lemma RestIsReady(n0: Net, before: seq<Step>, n: Net, f: Forest, d: Data)
    requires Initial(n0) && Runs(n0, before, n) && TreeShaped(n, f) && Quiet(n) && !d.PullResponse?
    requires d.PullRequest? ==> AllKeepPulls(n0, before, n)
    ensures Ready(n, f, d)
  {
    InitialGood(n0);
    RunKeepsGood(n0, before, n);
    InitialConservesPulls(n0);
    RunConservesPullsIff(n0, before, n);
  }

  /**
   After any run from the start that has come to rest on a tree, once no copy is under way: each
   link that leads to a gateway with a matching global registration has carried every global
   push or request made behind its other end exactly once, and no other link has carried any.
   Requests need the pull interests to be conserved.
   */
  lemma EachLinkCarriesOnce(n0: Net, before: seq<Step>, n: Net, f: Forest, run: seq<Step>, n': Net, d: Data,
                            a: GatewayId, b: GatewayId)
    requires Initial(n0) && Runs(n0, before, n) && TreeShaped(n, f) && Quiet(n) && !d.PullResponse?
    requires d.PullRequest? ==> AllKeepPulls(n0, before, n)
    requires AllTraffic(run) && Runs(n, run, n') && NoneUnderWay(n, d) && NoneUnderWay(n', d)
    requires f.Edge(a, b) && a in n.nodes
    ensures WantedBehind(n, f, a, b, d) ==> Carried(n, run, n', a, b, d) == Count(run, StartsBefore(f, a, b, d))
    ensures !WantedBehind(n, f, a, b, d) ==> Carried(n, run, n', a, b, d) == 0
  {
    RestIsReady(n0, before, n, f, d);
    LinkCarries(n, f, run, n', a, b, d);
  }

  /**
   And where pull interests are conserved, each registration has been handed every request for
   its topic that was made by another plugin of its gateway, in any scope, and every global one
   made at a gateway from which a way to a global registration leads through its gateway, each
   exactly once; and nobody has been handed any other.
   */
  lemma EachRequestHandedOnce(n0: Net, before: seq<Step>, n: Net, f: Forest, run: seq<Step>, n': Net, d: Data,
                              x: GatewayId, h: Handle)
    requires Initial(n0) && Runs(n0, before, n) && AllKeepPulls(n0, before, n) && TreeShaped(n, f) && Quiet(n)
    requires d.PullRequest? && AllTraffic(run) && Runs(n, run, n') && NoneUnderWay(n, d) && NoneUnderWay(n', d)
    requires x in n.nodes
    ensures x in n'.nodes
    ensures n'.nodes[x].delivered[Delivery(h, d)] == n.nodes[x].delivered[Delivery(h, d)] +
            Count(n.nodes[x].pull, MadeBy(d.topic, h)) * Count(run, AskedOf(n, f, x, h, d))
  {
    RestIsReady(n0, before, n, f, d);
    RequestsHanded(n, f, run, n', d, x, h);
    HandedAsAsked(n, run, n', d, x, h, AskedOf(n, f, x, h, d));
  }
}
