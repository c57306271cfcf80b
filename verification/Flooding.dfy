/** Sums over one side of a link of a tree. */
module TreeSums {
  import opened Sums
  import opened Topology

  /** `ks` are the neighbours of `b`. */
  ghost predicate Neighbours(f: Forest, b: GatewayId, ks: set<GatewayId>)
  {
    forall k :: k in ks <==> f.Edge(b, k)
  }

  ghost function NextHop(f: Forest, a: GatewayId): GatewayId -> GatewayId
    requires f.Acyclic()
  {
    x => if a != x && f.Joined(a, x) then f.Hop(a, x) else a
  }

  /** For each neighbour of `b`, the sum over the gateways behind it. */
  ghost function SideTotal(f: Forest, v: set<GatewayId>, b: GatewayId, w: GatewayId -> nat): GatewayId -> nat
    requires f.Acyclic()
  {
    k => Sum(f.Side(v, b, k), w)
  }

  ghost function SideSize(f: Forest, v: set<GatewayId>, b: GatewayId): GatewayId -> nat
    requires f.Acyclic()
  {
    k => |f.Side(v, b, k)|
  }

  lemma SidePieces(f: Forest, v: set<GatewayId>, a: GatewayId, b: GatewayId, k: GatewayId)
    requires f.Acyclic() && f.Edge(a, b) && k != a && k != b
    ensures Fiber(f.Side(v, a, b) - {b}, NextHop(f, b), k) == f.Side(v, b, k)
  {
    forall x | x in v ensures x in Fiber(f.Side(v, a, b) - {b}, NextHop(f, b), k) <==> x in f.Side(v, b, k) {
      f.SideSplits(a, b, x);
    }
  }

  /** One side of a link is the near gateway and the sides behind its other neighbours. */
  lemma SideSum(f: Forest, v: set<GatewayId>, a: GatewayId, b: GatewayId, ks: set<GatewayId>, w: GatewayId -> nat)
    requires f.Acyclic() && f.Edge(a, b) && b in v && Neighbours(f, b, ks)
    ensures Sum(f.Side(v, a, b), w) == w(b) + Sum(ks - {a}, SideTotal(f, v, b, w))
  {
    var rest, h := f.Side(v, a, b) - {b}, NextHop(f, b);
    f.SideSplits(a, b, b);
    SumStep(f.Side(v, a, b), w, b);
    forall x | x in rest ensures h(x) in ks - {a} {
      f.SideSplits(a, b, x);
      assert f.Edge(b, f.Hop(b, x));
    }
    SumFibers(rest, h, ks - {a}, w);
    forall k | k in ks - {a} ensures FiberTotal(rest, h, w)(k) == SideTotal(f, v, b, w)(k) {
      assert f.Edge(b, k);
      SidePieces(f, v, a, b, k);
    }
    SumCongruent(ks - {a}, FiberTotal(rest, h, w), SideTotal(f, v, b, w));
  }

  lemma SideCard(f: Forest, v: set<GatewayId>, a: GatewayId, b: GatewayId, ks: set<GatewayId>)
    requires f.Acyclic() && f.Edge(a, b) && b in v && Neighbours(f, b, ks)
    ensures |f.Side(v, a, b)| == 1 + Sum(ks - {a}, SideSize(f, v, b))
  {
    var one := (x: GatewayId) => 1;
    SideSum(f, v, a, b, ks, one);
    SumOfOnes(f.Side(v, a, b), one);
    forall k | k in ks - {a} ensures SideTotal(f, v, b, one)(k) == SideSize(f, v, b)(k) {
      SumOfOnes(f.Side(v, b, k), one);
    }
    SumCongruent(ks - {a}, SideTotal(f, v, b, one), SideSize(f, v, b));
  }
}

/**
 On a tree the flooding of control messages comes to rest, and when it has, each count
 is the number of global registrations in the whole subtree behind that neighbour.
 */
module Flooding {
  import opened Sums
  import opened Topology
  import opened TreeSums
  import opened Tables
  import opened Network
  import opened Conservation

  /** All links of the tree `f` are up and registered at both ends, and there are no others. */
  ghost predicate TreeShaped(n: Net, f: Forest)
  {
    && f.Acyclic()
    && WellFormed(n)
    && n.greeting == {}
    && forall a, b :: f.Edge(a, b) <==> (a, b) in n.conns
  }

  /** No control message is under way. */
  ghost predicate Quiet(n: Net)
  {
    forall a :: a in n.nodes ==> NothingQueued(n.nodes[a])
  }

  ghost predicate NothingQueued(g: Gateway)
  {
    forall b :: b in g.links ==> g.links[b].control == []
  }

  lemma LinksAreEdges(n: Net, f: Forest, a: GatewayId, b: GatewayId)
    requires TreeShaped(n, f) && a in n.nodes
    ensures b in n.nodes[a].links <==> f.Edge(a, b)
    ensures f.Edge(a, b) ==> b in n.nodes && a != b
  {
    assert UpToDate(n, a);
  }

  lemma NeighboursOf(n: Net, f: Forest, a: GatewayId)
    requires TreeShaped(n, f) && a in n.nodes
    ensures Neighbours(f, a, n.nodes[a].links.Keys)
  {
    forall b ensures b in n.nodes[a].links.Keys <==> f.Edge(a, b) { LinksAreEdges(n, f, a, b); }
  }

  // ----- at rest -----

  ghost function HeldFrom(subs: seq<NeighbourSub>, t: string): GatewayId -> nat
  {
    k => Count(subs, IsFrom(t, k))
  }

  /** What is not from `a` is from one of the other neighbours. */
  lemma {:induction false} CountByNeighbour(subs: seq<NeighbourSub>, t: string, a: GatewayId, ks: set<GatewayId>)
    requires forall s :: s in subs ==> s.neighbour in ks
    ensures Count(subs, NotFrom(t, a)) == Sum(ks - {a}, HeldFrom(subs, t))
  {
    var w := HeldFrom(subs, t);
    if subs == [] {
      SumZero(ks - {a}, w);
    } else {
      assert forall s :: s in subs[1..] ==> s in subs;
      CountByNeighbour(subs[1..], t, a, ks);
      var w' := HeldFrom(subs[1..], t);
      var k := subs[0].neighbour;
      assert subs[0] in subs;
      if k != a {
        SumChange(ks - {a}, w', w, k);
      } else {
        SumCongruent(ks - {a}, w', w);
      }
    }
  }

  ghost function WantedAt(n: Net, t: string): GatewayId -> nat
  {
    x => if x in n.nodes then Wanted(n.nodes[x], t) else 0
  }

  /** On a link at rest the count is the demand of the gateway at the other end. */
  lemma LinkAtRest(n: Net, f: Forest, a: GatewayId, b: GatewayId, t: string)
    requires TreeShaped(n, f) && Conserved(n) && Quiet(n) && f.Edge(a, b)
    ensures a in n.nodes && b in n.nodes && a in n.nodes[b].links
    ensures Held(n.nodes[a], t, b) == Demand(n.nodes[b], t, a)
    ensures forall s :: s in n.nodes[b].subs ==> s.neighbour in n.nodes[b].links
  {
    assert (a, b) in n.conns && (b, a) in n.conns;
    assert UpToDate(n, b) && f.Edge(b, a);
    LinksAreEdges(n, f, b, a);
    assert Balanced(n.nodes[b], n.nodes[a], b, a, t);
    assert NothingQueued(n.nodes[b]);
  }

  ghost predicate CountsBehind(n: Net, f: Forest, a: GatewayId, b: GatewayId, t: string)
    requires f.Acyclic()
  {
    a in n.nodes && Held(n.nodes[a], t, b) == Sum(f.Side(n.nodes.Keys, a, b), WantedAt(n, t))
  }

  lemma OthersTotal(n: Net, f: Forest, b: GatewayId, others: set<GatewayId>, t: string)
    requires f.Acyclic() && b in n.nodes
    requires forall k :: k in others ==> CountsBehind(n, f, b, k, t)
    ensures Sum(others, HeldFrom(n.nodes[b].subs, t)) == Sum(others, SideTotal(f, n.nodes.Keys, b, WantedAt(n, t)))
  {
    var u, w := HeldFrom(n.nodes[b].subs, t), SideTotal(f, n.nodes.Keys, b, WantedAt(n, t));
    forall k | k in others ensures u(k) == w(k) { assert CountsBehind(n, f, b, k, t); }
    SumCongruent(others, u, w);
  }

  /** If the counts of the other neighbours are right, the demand is what is on this side of the link. */
  lemma DemandIsSide(n: Net, f: Forest, a: GatewayId, b: GatewayId, t: string)
    requires TreeShaped(n, f) && f.Edge(a, b) && b in n.nodes && a in n.nodes[b].links
    requires forall s :: s in n.nodes[b].subs ==> s.neighbour in n.nodes[b].links
    requires forall k :: k in n.nodes[b].links.Keys - {a} ==> CountsBehind(n, f, b, k, t)
    ensures Demand(n.nodes[b], t, a) == Sum(f.Side(n.nodes.Keys, a, b), WantedAt(n, t))
  {
    var keys := n.nodes[b].links.Keys;
    CountByNeighbour(n.nodes[b].subs, t, a, keys);
    OthersTotal(n, f, b, keys - {a}, t);
    NeighboursOf(n, f, b);
    SideSum(f, n.nodes.Keys, a, b, keys, WantedAt(n, t));
  }

  /** The count for a neighbour is the number of global registrations behind it. */
  lemma {:induction false} CountsAtRest(n: Net, f: Forest, a: GatewayId, b: GatewayId, t: string)
    requires TreeShaped(n, f) && Conserved(n) && Quiet(n) && f.Edge(a, b)
    ensures a in n.nodes && b in n.nodes
    ensures Held(n.nodes[a], t, b) == Sum(f.Side(n.nodes.Keys, a, b), WantedAt(n, t))
    decreases |f.Side(n.nodes.Keys, a, b)|
  {
    LinkAtRest(n, f, a, b, t);
    forall k | k in n.nodes[b].links.Keys - {a} ensures CountsBehind(n, f, b, k, t) {
      LinksAreEdges(n, f, b, k);
      f.SideShrinks(n.nodes.Keys, a, b, k);
      Smaller(f.Side(n.nodes.Keys, b, k), f.Side(n.nodes.Keys, a, b));
      CountsAtRest(n, f, b, k, t);
    }
    DemandIsSide(n, f, a, b, t);
  }

  lemma Smaller<T>(s: set<T>, t: set<T>)
    requires s < t
    ensures |s| < |t|
  {
    assert t == s + (t - s) && t - s != {};
  }

  // ----- coming to rest -----

  // ----- the work that is left -----

  ghost function Weighted(q: nat, size: nat): nat
  {
    if q == 0 then 0 else size + Weighted(q - 1, size)
  }

  /** The messages queued for each neighbour, each counted `size` times. */
  ghost function QueueWork(links: map<GatewayId, Link>, size: GatewayId -> nat): GatewayId -> nat
  {
    k => if k in links then Weighted(|links[k].control|, size(k)) else 0
  }

  ghost function LinksWork(links: map<GatewayId, Link>, size: GatewayId -> nat): nat
  {
    Sum(links.Keys, QueueWork(links, size))
  }

  ghost function NodeWork(nodes: map<GatewayId, Gateway>, sizes: GatewayId -> GatewayId -> nat): GatewayId -> nat
  {
    a => if a in nodes then LinksWork(nodes[a].links, sizes(a)) else 0
  }

  ghost function TotalWork(nodes: map<GatewayId, Gateway>, sizes: GatewayId -> GatewayId -> nat): nat
  {
    Sum(nodes.Keys, NodeWork(nodes, sizes))
  }

  /** Handing over a message takes its weight off the sender's work. */
  lemma TakeWork(links: map<GatewayId, Link>, links': map<GatewayId, Link>, to: GatewayId, size: GatewayId -> nat)
    requires to in links && links[to].control != []
    requires links' == links[to := links[to].(control := links[to].control[1..])]
    ensures LinksWork(links', size) == LinksWork(links, size) - size(to)
  {
    assert links'.Keys == links.Keys;
    SumChange(links.Keys, QueueWork(links, size), QueueWork(links', size), to);
  }

  /** Passing it on adds a message to every other queue of the receiver. */
  lemma BroadcastWork(links: map<GatewayId, Link>, from: GatewayId, c: Control, size: GatewayId -> nat)
    requires from in links
    ensures LinksWork(Broadcast(links, {from}, c), size) == LinksWork(links, size) + Sum(links.Keys - {from}, size)
  {
    var links' := Broadcast(links, {from}, c);
    assert links'.Keys == links.Keys;
    var u, u' := QueueWork(links, size), QueueWork(links', size);
    forall k | k in links.Keys - {from} ensures u'(k) == u(k) + size(k) {
      assert |links'[k].control| == |links[k].control| + 1;
    }
    SumAdd(links.Keys - {from}, u, size, u');
    SumStep(links.Keys, u, from);
    SumStep(links.Keys, u', from);
  }

  /** A message weighs one more than its copies on all the links that it is passed on to. */
  lemma WorkMoves(nodes: map<GatewayId, Gateway>, from: GatewayId, to: GatewayId, gf: Gateway, gt: Gateway,
                  c: Control, sizes: GatewayId -> GatewayId -> nat)
    requires from in nodes && to in nodes && from != to
    requires to in nodes[from].links && from in nodes[to].links && nodes[from].links[to].control != []
    requires gf == TakeControl(nodes[from], to)
    requires gt.links == Broadcast(nodes[to].links, {from}, c)
    requires sizes(from)(to) == 1 + Sum(nodes[to].links.Keys - {from}, sizes(to))
    ensures TotalWork(nodes[from := gf][to := gt], sizes) == TotalWork(nodes, sizes) - 1
  {
    var nodes' := nodes[from := gf][to := gt];
    assert nodes'.Keys == nodes.Keys;
    var w, w' := NodeWork(nodes, sizes), NodeWork(nodes', sizes);
    TakeWork(nodes[from].links, gf.links, to, sizes(from));
    BroadcastWork(nodes[to].links, from, c, sizes(to));
    SumStep(nodes.Keys, w, from);
    SumStep(nodes.Keys, w', from);
    SumChange(nodes.Keys - {from}, w, w', to);
  }

  lemma ReceiveBroadcasts(g: Gateway, from: GatewayId, c: Control)
    ensures ReceiveControl(g, from, c).links == Broadcast(g.links, {from}, c)
  {
  }

  lemma Idle(g: Gateway, size: GatewayId -> nat)
    requires forall b :: b in g.links ==> size(b) > 0
    ensures LinksWork(g.links, size) == 0 <==> NothingQueued(g)
  {
    var w := QueueWork(g.links, size);
    SumZero(g.links.Keys, w);
    forall b | b in g.links ensures w(b) == 0 <==> g.links[b].control == [] {
      assert |g.links[b].control| == 0 <==> g.links[b].control == [];
    }
  }

  /** Nothing is left to do exactly when all queues are empty. */
  lemma NoWorkLeft(nodes: map<GatewayId, Gateway>, sizes: GatewayId -> GatewayId -> nat)
    requires forall a, b :: a in nodes && b in nodes[a].links ==> sizes(a)(b) > 0
    ensures TotalWork(nodes, sizes) == 0 <==> forall a :: a in nodes ==> NothingQueued(nodes[a])
  {
    SumZero(nodes.Keys, NodeWork(nodes, sizes));
    forall a | a in nodes ensures NodeWork(nodes, sizes)(a) == 0 <==> NothingQueued(nodes[a]) {
      Idle(nodes[a], sizes(a));
    }
  }

  // ----- coming to rest -----

  /** Each message counts for every gateway it can still reach. */
  ghost function Reach(f: Forest, v: set<GatewayId>): GatewayId -> GatewayId -> nat
    requires f.Acyclic()
  {
    a => SideSize(f, v, a)
  }

  ghost function Work(n: Net, f: Forest): nat
    requires f.Acyclic()
  {
    TotalWork(n.nodes, Reach(f, n.nodes.Keys))
  }

  lemma DeliveryKeepsTree(n: Net, f: Forest, from: GatewayId, to: GatewayId)
    requires TreeShaped(n, f) && Enabled(n, DeliverControl(from, to))
    ensures TreeShaped(Apply(n, DeliverControl(from, to)), f)
  {
    StepKeepsWellFormed(n, DeliverControl(from, to));
    var n' := Apply(n, DeliverControl(from, to));
    assert n'.conns == n.conns && n'.greeting == n.greeting;
  }

  /** Every delivery of a control message takes exactly one unit off the work that is left. */
  lemma DeliveryTakesOne(n: Net, f: Forest, from: GatewayId, to: GatewayId)
    requires TreeShaped(n, f) && Enabled(n, DeliverControl(from, to))
    ensures Work(Apply(n, DeliverControl(from, to)), f) == Work(n, f) - 1
  {
    ReachSplits(n, f, from, to);
    DeliverySplits(n, from, to, Reach(f, n.nodes.Keys));
  }

  /** On a tree a message reaches one gateway now and the others through its copies. */
  lemma ReachSplits(n: Net, f: Forest, from: GatewayId, to: GatewayId)
    requires TreeShaped(n, f) && Open(n, from, to)
    ensures from in n.nodes[to].links
    ensures Reach(f, n.nodes.Keys)(from)(to) ==
            1 + Sum(n.nodes[to].links.Keys - {from}, Reach(f, n.nodes.Keys)(to))
  {
    LinksAreEdges(n, f, from, to);
    LinksAreEdges(n, f, to, from);
    NeighboursOf(n, f, to);
    SideCard(f, n.nodes.Keys, from, to, n.nodes[to].links.Keys);
  }

  lemma DeliverySplits(n: Net, from: GatewayId, to: GatewayId, sizes: GatewayId -> GatewayId -> nat)
    requires Enabled(n, DeliverControl(from, to)) && from in n.nodes[to].links
    requires sizes(from)(to) == 1 + Sum(n.nodes[to].links.Keys - {from}, sizes(to))
    ensures Apply(n, DeliverControl(from, to)).nodes.Keys == n.nodes.Keys
    ensures TotalWork(Apply(n, DeliverControl(from, to)).nodes, sizes) == TotalWork(n.nodes, sizes) - 1
  {
    var c := n.nodes[from].links[to].control[0];
    var gf, gt := TakeControl(n.nodes[from], to), ReceiveControl(n.nodes[to], from, c);
    assert gt.links == Broadcast(n.nodes[to].links, {from}, c) by { ReceiveBroadcasts(n.nodes[to], from, c); }
    WorkMoves(n.nodes, from, to, gf, gt, c, sizes);
    KeysKept(n.nodes, from, gf, to, gt);
  }

  lemma KeysKept<K, V>(m: map<K, V>, a: K, x: V, b: K, y: V)
    requires a in m && b in m
    ensures m[a := x][b := y].Keys == m.Keys
  {
  }

  lemma ReachesSomeone(n: Net, f: Forest, a: GatewayId, b: GatewayId)
    requires TreeShaped(n, f) && a in n.nodes && b in n.nodes[a].links
    ensures Reach(f, n.nodes.Keys)(a)(b) > 0 && Open(n, a, b)
  {
    LinksAreEdges(n, f, a, b);
    f.SideSplits(a, b, b);
    assert b in f.Side(n.nodes.Keys, a, b);
  }

  lemma WorkLeftMeansBusy(n: Net, f: Forest)
    requires TreeShaped(n, f)
    ensures Work(n, f) == 0 <==> Quiet(n)
    ensures !Quiet(n) ==> exists a, b :: Enabled(n, DeliverControl(a, b))
  {
    forall a, b | a in n.nodes && b in n.nodes[a].links
      ensures Reach(f, n.nodes.Keys)(a)(b) > 0 && Open(n, a, b)
    {
      ReachesSomeone(n, f, a, b);
    }
    NoWorkLeft(n.nodes, Reach(f, n.nodes.Keys));
    if !Quiet(n) { SomeDelivery(n); }
  }

  lemma SomeDelivery(n: Net)
    requires !Quiet(n)
    requires forall a, b :: a in n.nodes && b in n.nodes[a].links ==> Open(n, a, b)
    ensures exists a, b :: Enabled(n, DeliverControl(a, b))
  {
    var a :| a in n.nodes && !NothingQueued(n.nodes[a]);
    var b :| b in n.nodes[a].links && n.nodes[a].links[b].control != [];
    assert Enabled(n, DeliverControl(a, b));
  }

  ghost predicate OnlyControl(run: seq<Step>)
  {
    forall s :: s in run ==> s.DeliverControl?
  }

  /** Whatever the order of the deliveries, they are at rest after exactly `Work` of them. */
  lemma {:induction false} FloodingTerminates(n: Net, f: Forest, run: seq<Step>, n': Net)
    requires TreeShaped(n, f) && OnlyControl(run) && Runs(n, run, n')
    ensures TreeShaped(n', f) && |run| == Work(n, f) - Work(n', f)
    ensures Quiet(n') <==> |run| == Work(n, f)
    ensures !Quiet(n') ==> exists a, b :: Enabled(n', DeliverControl(a, b))
    decreases run
  {
    if run == [] {
      WorkLeftMeansBusy(n, f);
    } else {
      assert run[0] in run && forall s :: s in run[1..] ==> s in run;
      DeliveryKeepsTree(n, f, run[0].from, run[0].to);
      DeliveryTakesOne(n, f, run[0].from, run[0].to);
      FloodingTerminates(Apply(n, run[0]), f, run[1..], n');
    }
  }

  /** After any run from the start, once at rest, all counts are the subtree totals. */
  lemma RunsComeToRightCounts(n0: Net, run: seq<Step>, n: Net, f: Forest, a: GatewayId, b: GatewayId, t: string)
    requires Initial(n0) && Runs(n0, run, n)
    requires TreeShaped(n, f) && Quiet(n) && f.Edge(a, b)
    ensures a in n.nodes && b in n.nodes
    ensures Held(n.nodes[a], t, b) == Sum(f.Side(n.nodes.Keys, a, b), WantedAt(n, t))
  {
    InitialGood(n0);
    RunKeepsGood(n0, run, n);
    CountsAtRest(n, f, a, b, t);
  }
}
