/** Short runs of the network after which pull interests are not what has been told. */
module PullFailures {
  import opened Sums
  import opened Topology
  import opened Tables
  import opened Network
  import opened Conservation
  import opened PullConservation

  function Start(ids: set<GatewayId>): Net
  {
    Net(map a | a in ids :: EmptyGateway, {}, {})
  }

  lemma ThreeSteps(n: Net, s: Step, s2: Step, s3: Step)
    requires Enabled(n, s) && Enabled(Apply(n, s), s2) && Enabled(Apply(Apply(n, s), s2), s3)
    ensures Runs(n, [s] + ([s2] + [s3]), Apply(Apply(Apply(n, s), s2), s3))
  {
    var n1, n2 := Apply(n, s), Apply(Apply(n, s), s2);
    assert [s3][1..] == [];
    OneStepMore(n1, s2, [s3], Apply(n2, s3));
    OneStepMore(n, s, [s2] + [s3], Apply(n2, s3));
  }

  lemma {:induction false} RunOn(n: Net, run: seq<Step>, n1: Net, more: seq<Step>, n2: Net)
    requires Runs(n, run, n1) && Runs(n1, more, n2)
    ensures Runs(n, run + more, n2)
    decreases run
  {
    if run == [] {
      assert run + more == more;
    } else {
      FirstStep(run, more);
      var next := Apply(n, run[0]);
      RunOn(next, run[1..], n1, more, n2);
      assert Runs(next, (run + more)[1..], n2);
    }
  }

  lemma FirstStep(run: seq<Step>, more: seq<Step>)
    requires run != []
    ensures run + more != [] && (run + more)[0] == run[0] && (run + more)[1..] == run[1..] + more
  {}

  /** One global entry, and nobody else's registrations. */
  lemma OneEntryDemand(g: Gateway, h: Handle, a: GatewayId)
    requires g.pull == [LocalSub("t", h, Global)] && g.pulls == multiset{}
    ensures PullDemand(g, "t", a) == 1
  {
    NothingFromOthers(g.pulls, "t", a);
    assert Count(g.pull[1..], IsGlobal("t")) == 0;
  }

  /** A plugin's interest from before the link: `b` is never told. */
  lemma NotToldOfPlugin(a: GatewayId, b: GatewayId)
    requires a != b
    ensures exists n0, run, n ::
      && Initial(n0) && Runs(n0, run, n) && a in n.nodes && b in n.nodes && b in n.nodes[a].links
      && n.nodes[a].links[b].control == [] && n.nodes[b].pulls == multiset{} && PullDemand(n.nodes[a], "t", b) == 1
  {
    var n0 := Start({a, b});
    var n1 := Apply(n0, Perform(a, DoRegisterPull("t", Global, 0)));
    var n2 := Apply(n1, Connect(a, b));
    var n3 := Apply(n2, Associate(b, a));
    ThreeSteps(n0, Perform(a, DoRegisterPull("t", Global, 0)), Connect(a, b), Associate(b, a));
    OneEntryDemand(n3.nodes[a], 0, b);
    assert Initial(n0);
  }

  /** A plugin's interest withdrawn again: `b` has been told of it, and never of the withdrawal. */
  lemma NeverToldOfWithdrawal(a: GatewayId, b: GatewayId)
    requires a != b
    ensures exists n0, run, n ::
      && Initial(n0) && Runs(n0, run, n) && a in n.nodes && b in n.nodes && b in n.nodes[a].links
      && n.nodes[a].links[b].control == [RegisterPull("t")] && PullDemand(n.nodes[a], "t", b) == 0
  {
    var before, n2 := Greeted(a, b);
    var g := n2.nodes[a];
    var register, withdraw := Perform(a, DoRegisterPull("t", Global, 0)), Perform(a, DoUnregisterPull("t", 0));
    var n3 := Apply(n2, register);
    var n4 := Apply(n3, withdraw);
    assert n3.nodes[a] == RegisterPullInterest(g, "t", Global, 0);
    assert n4.nodes[a] == UnregisterPullInterest(n3.nodes[a], "t", 0);
    RegisteredAndWithdrawn(g, b);
    assert [withdraw][1..] == [];
    OneStepMore(n2, register, [withdraw], n4);
    RunOn(Start({a, b}), before, n2, [register] + [withdraw], n4);
    NoDemandIff(n4.nodes[a], b);
  }

  lemma Greeted(a: GatewayId, b: GatewayId) returns (run: seq<Step>, n: Net)
    requires a != b
    ensures Initial(Start({a, b})) && Runs(Start({a, b}), run, n) && a in n.nodes && b in n.nodes
    ensures n.nodes[a] == EmptyGateway.(links := map[b := Link([], [])])
  {
    var n0 := Start({a, b});
    var n1 := Apply(n0, Connect(a, b));
    n := Apply(n1, Associate(b, a));
    run := [Connect(a, b)] + [Associate(b, a)];
    assert [Associate(b, a)][1..] == [];
    OneStepMore(n0, Connect(a, b), [Associate(b, a)], n);
    assert n.nodes[a].links[b].control == [];
  }

  lemma RegisteredAndWithdrawn(g: Gateway, b: GatewayId)
    requires g == EmptyGateway.(links := map[b := Link([], [])])
    ensures var g' := UnregisterPullInterest(RegisterPullInterest(g, "t", Global, 0), "t", 0);
      && g'.pull == [] && g'.pulls == multiset{} && b in g'.links && g'.links[b].control == [RegisterPull("t")]
  {
    assert RegisterPullInterest(g, "t", Global, 0).pull == [LocalSub("t", 0, Global)];
  }

  /** Both have greeted each other, and `a` has told `b` of one interest. */
  lemma ToldOfNeighbour(a: GatewayId, b: GatewayId, c: GatewayId) returns (run: seq<Step>, n: Net)
    requires a != b && b != c && a != c
    ensures Runs(Start({a, b, c}), run, n)
    ensures n.nodes.Keys == {a, b, c} && n.conns == {(a, b), (b, a)} && n.greeting == {}
    ensures n.nodes[b].pull == [] && n.nodes[b].push == [] && n.nodes[b].subs == []
    ensures n.nodes[b].pulls == multiset{("t", a)} && n.nodes[b].links.Keys == {a}
    ensures n.nodes[c] == EmptyGateway
  {
    var n0 := Start({a, b, c});
    var n1 := Apply(n0, Connect(a, b));
    var n2 := Apply(n1, Associate(b, a));
    var n3 := Apply(n2, Associate(a, b));
    assert b in n3.nodes[a].links && n3.nodes[a].links[b].control == [];
    ThreeSteps(n0, Connect(a, b), Associate(b, a), Associate(a, b));
    var register := Perform(a, DoRegisterPull("t", Global, 0));
    var n4 := Apply(n3, register);
    assert n4.nodes[a].links[b].control == [] + [RegisterPull("t")];
    assert Open(n4, a, b);
    n := Apply(n4, DeliverControl(a, b));
    assert [DeliverControl(a, b)][1..] == [];
    OneStepMore(n3, register, [DeliverControl(a, b)], n);
    run := [Connect(a, b)] + ([Associate(b, a)] + [Associate(a, b)]) + ([register] + [DeliverControl(a, b)]);
    RunOn(n0, [Connect(a, b)] + ([Associate(b, a)] + [Associate(a, b)]), n3, [register] + [DeliverControl(a, b)], n);
  }

  /** A neighbour's registration from before the link: `c` is never told. */
  lemma NotToldOfNeighbour(a: GatewayId, b: GatewayId, c: GatewayId)
    requires a != b && b != c && a != c
    ensures exists n0, run, n ::
      && Initial(n0) && Runs(n0, run, n) && b in n.nodes && c in n.nodes && c in n.nodes[b].links
      && n.nodes[b].links[c].control == [] && n.nodes[c].pulls == multiset{} && PullDemand(n.nodes[b], "t", c) == 1
  {
    var n0 := Start({a, b, c});
    var run, n := ToldOfNeighbour(a, b, c);
    var n1 := Apply(n, Connect(b, c));
    var n2 := Apply(n1, Associate(c, b));
    assert [Associate(c, b)][1..] == [];
    OneStepMore(n, Connect(b, c), [Associate(c, b)], n2);
    RunOn(n0, run, n, [Connect(b, c)] + [Associate(c, b)], n2);
    assert n2.nodes[b] == RegisterConnection(n.nodes[b], c) && n2.nodes[c] == EmptyGateway;
    OneRegistrationDemand(n2.nodes[b], a, c);
    assert Initial(n0);
  }

  lemma OneRegistrationDemand(g: Gateway, a: GatewayId, c: GatewayId)
    requires a != c && g.pull == [] && g.pulls == multiset{("t", a)}
    ensures PullDemand(g, "t", c) == 1
  {
    OthersOneMore(multiset{}, "t", a, "t", c);
    NothingFromOthers(multiset{}, "t", c);
    assert multiset{} + multiset{("t", a)} == multiset{("t", a)};
  }
}
