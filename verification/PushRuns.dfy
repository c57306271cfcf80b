/**
 Pushes over whole runs: equal ones may be under way at the same time, and every one
 of them comes to its end.
 */
module PushRuns {
  import opened Sums
  import opened Topology
  import opened Tables
  import opened Network
  import opened Conservation
  import opened Flooding
  import opened PushDelivery

  // ----- equal pushes -----

  ghost predicate AllTraffic(run: seq<Step>)
  {
    forall s :: s in run ==> IsTraffic(s)
  }

  lemma RestIsTraffic(run: seq<Step>)
    requires AllTraffic(run) && run != []
    ensures IsTraffic(run[0]) && AllTraffic(run[1..])
  {
    assert run[0] in run && forall s :: s in run[1..] ==> s in run;
  }

  /** How many of the pushes with the content of `d` that are made in the run are meant for plugin `h` of `x`. */
  ghost function PushesFor(n: Net, f: Forest, run: seq<Step>, n': Net, d: Data, x: GatewayId, h: Handle): nat
    requires f.Acyclic() && d.Push? && Runs(n, run, n')
    decreases run
  {
    if run == [] then 0
    else (if Starts(run[0], d) && Addressed(n, f, run[0].at, run[0].step, x, h) then 1 else 0)
         + PushesFor(Apply(n, run[0]), f, run[1..], n', d, x, h)
  }

  lemma {:induction false} RunCountsPushes(n: Net, f: Forest, run: seq<Step>, n': Net, d: Data, x: GatewayId, h: Handle)
    requires Settled(n, f) && d.Push? && AllTraffic(run) && Runs(n, run, n') && x in n.nodes
    ensures Settled(n', f) && x in n'.nodes
    ensures Due(n', f, x, h, d) == Due(n, f, x, h, d) + PushesFor(n, f, run, n', d, x, h)
    decreases run
  {
    if run != [] {
      RestIsTraffic(run);
      TrafficKeepsSettled(n, f, run[0]);
      if Starts(run[0], d) {
        DueAfterPush(n, f, run[0].at, run[0].step, x, h);
      } else {
        StepKeepsDue(n, f, run[0], x, h, d);
      }
      RunCountsPushes(Apply(n, run[0]), f, run[1..], n', d, x, h);
    }
  }

  /**
   After any run from the start that has come to rest on a tree: however many equal pushes are
   made, by whom and where, and however their copies overtake each other, once none is under
   way each plugin has been handed exactly as many as were meant for it.
   */
  lemma EachPushDeliveredOnce(n0: Net, before: seq<Step>, n: Net, f: Forest, run: seq<Step>, n': Net, d: Data,
                              x: GatewayId, h: Handle)
    requires Initial(n0) && Runs(n0, before, n) && TreeShaped(n, f) && Quiet(n)
    requires d.Push? && AllTraffic(run) && Runs(n, run, n') && x in n.nodes
    requires NoneUnderWay(n, d) && NoneUnderWay(n', d)
    ensures x in n'.nodes
    ensures n'.nodes[x].delivered[Delivery(h, d)] ==
            n.nodes[x].delivered[Delivery(h, d)] + PushesFor(n, f, run, n', d, x, h)
  {
    InitialGood(n0);
    RunKeepsGood(n0, before, n);
    RunCountsPushes(n, f, run, n', d, x, h);
    DueIsDelivered(n, f, x, h, d);
    DueIsDelivered(n', f, x, h, d);
  }

  // ----- coming to the end -----

  ghost predicate CarriesCopy(n: Net, a: GatewayId, b: GatewayId, d: Data)
  {
    a in n.nodes && b in n.nodes[a].links && d in n.nodes[a].links[b].data
  }

  lemma SomeCopy(n: Net, d: Data) returns (a: GatewayId, b: GatewayId)
    requires !NoneUnderWay(n, d)
    ensures CarriesCopy(n, a, b, d)
  {
    a, b :| a in n.nodes && b in n.nodes[a].links && d in n.nodes[a].links[b].data;
  }

  lemma CopyHeads(n: Net, f: Forest, a: GatewayId, b: GatewayId, d: Data)
    requires TreeShaped(n, f) && CarriesCopy(n, a, b, d)
    ensures Open(n, a, b) && UnderWay(n.nodes, HopTo(f, b), d) > 0
  {
    ReachesSomeone(n, f, a, b);
    HopToArrives(n, f, a, b);
    assert multiset(n.nodes[a].links[b].data)[d] > 0;
    assert Queued(n.nodes, HopTo(f, b), d)(a) > 0;
    SumStep(n.nodes.Keys, Queued(n.nodes, HopTo(f, b), d), a);
  }

  lemma SomethingOutstanding(n: Net, f: Forest, d: Data)
    requires TreeShaped(n, f) && !NoneUnderWay(n, d)
    ensures Outstanding(n, f, d) > 0
  {
    var a, b := SomeCopy(n, d);
    CopyHeads(n, f, a, b, d);
    SumStep(n.nodes.Keys, Heading(n.nodes, f, d), b);
  }

  lemma NothingOutstanding(n: Net, f: Forest, d: Data)
    requires f.Acyclic() && NoneUnderWay(n, d)
    ensures Outstanding(n, f, d) == 0
  {
    forall x | x in n.nodes.Keys ensures Heading(n.nodes, f, d)(x) == 0 { NothingUnderWay(n.nodes, HopTo(f, x), d); }
    SumZero(n.nodes.Keys, Heading(n.nodes, f, d));
  }

  /** Nothing is outstanding exactly if no copy is under way. */
  lemma OutstandingIffUnderWay(n: Net, f: Forest, d: Data)
    requires TreeShaped(n, f)
    ensures Outstanding(n, f, d) == 0 <==> NoneUnderWay(n, d)
  {
    if NoneUnderWay(n, d) { NothingOutstanding(n, f, d); } else { SomethingOutstanding(n, f, d); }
  }

  /** A copy that is under way can be delivered. */
  lemma CopyCanMove(n: Net, f: Forest, d: Data) returns (s: Step)
    requires TreeShaped(n, f) && !NoneUnderWay(n, d)
    ensures Delivers(n, s, d)
  {
    var a, b := SomeCopy(n, d);
    CopyHeads(n, f, a, b, d);
    s := MoveCopy(n, a, b, d);
  }

  lemma MoveCopy(n: Net, a: GatewayId, b: GatewayId, d: Data) returns (s: Step)
    requires Open(n, a, b) && CarriesCopy(n, a, b, d)
    ensures Delivers(n, s, d)
  {
    var data := n.nodes[a].links[b].data;
    var i :| 0 <= i < |data| && data[i] == d;
    s := DeliverData(a, b, i);
  }

  /** Either no copy is under way, or one can be delivered. */
  ghost predicate EndedOrGoesOn(n: Net, d: Data)
  {
    NoneUnderWay(n, d) || exists s :: Delivers(n, s, d)
  }

  lemma NeverStuck(n: Net, f: Forest, d: Data)
    requires TreeShaped(n, f)
    ensures EndedOrGoesOn(n, d)
  {
    if !NoneUnderWay(n, d) { var s := CopyCanMove(n, f, d); }
  }

  /**
   A push or pull request comes to its end: whatever else is going on, as long as a copy of it
   is under way one can be delivered, and deliveries made and still outstanding are fewer than
   the gateways; nothing outstanding means none under way.
   */
  lemma PushComesToItsEnd(n: Net, f: Forest, at: GatewayId, s: LocalStep, n1: Net, run: seq<Step>, n': Net, d: Data)
    requires Settled(n, f) && at in n.nodes && Begins(s, d) && NoneUnderWay(n, d)
    requires n1 == Apply(n, Perform(at, s)) && TrafficBut(run, d) && Runs(n1, run, n')
    ensures Settled(n', f)
    ensures Forwards(n1, run, n', d) + Outstanding(n', f, d) < |n.nodes|
    ensures EndedOrGoesOn(n', d)
  {
    StartSettles(n, f, at, s, d);
    ForwardsBounded(n1, f, run, n', d);
    NeverStuck(n', f, d);
  }

  lemma StartSettles(n: Net, f: Forest, at: GatewayId, s: LocalStep, d: Data)
    requires Settled(n, f) && at in n.nodes && Begins(s, d) && NoneUnderWay(n, d)
    ensures Settled(Apply(n, Perform(at, s)), f)
    ensures Outstanding(Apply(n, Perform(at, s)), f, d) < |n.nodes|
  {
    TrafficKeepsSettled(n, f, Perform(at, s));
    StartOutstanding(n, f, at, s, d);
  }

  /** And there is a run of nothing but its deliveries that ends it. */
  lemma {:induction false} DeliverAll(n: Net, f: Forest, d: Data) returns (run: seq<Step>, n': Net)
    requires Settled(n, f) && !d.PullResponse?
    ensures Runs(n, run, n') && NoneUnderWay(n', d) && |run| <= Outstanding(n, f, d)
    ensures forall s :: s in run ==> s.DeliverData?
    decreases Outstanding(n, f, d), 1
  {
    if NoneUnderWay(n, d) {
      run, n' := [], n;
    } else {
      var s := CopyCanMove(n, f, d);
      var rest;
      rest, n' := AfterOneMore(n, f, d, s);
      run := [s] + rest;
      OneStepMore(n, s, rest, n');
    }
  }

  lemma {:induction false} AfterOneMore(n: Net, f: Forest, d: Data, s: Step) returns (rest: seq<Step>, n': Net)
    requires Settled(n, f) && !d.PullResponse? && Delivers(n, s, d)
    ensures Runs(Apply(n, s), rest, n') && NoneUnderWay(n', d) && |rest| < Outstanding(n, f, d)
    ensures forall t :: t in rest ==> t.DeliverData?
    decreases Outstanding(n, f, d), 0
  {
    DeliveryOutstanding(n, f, s.from, s.to, s.i, d);
    TrafficKeepsSettled(n, f, s);
    rest, n' := DeliverAll(Apply(n, s), f, d);
  }
}
