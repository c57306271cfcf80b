/**
 What gateways tell each other about pull interests, against what they want to be asked
 for on behalf of their own plugins and of their other neighbours.  Unlike subscriptions
 these are not conserved: this is where and why, and when they are.
 */
module PullConservation {
  import opened Sums
  import opened Topology
  import opened Tables
  import opened Network
  import opened Conservation

  // ----- what is told -----

  ghost function PullDelta(c: Control, t: string): int
  {
    if c == RegisterPull(t) then 1 else if c == UnregisterPull(t) then -1 else 0
  }

  /** Registrations less withdrawals for `t` among the messages. */
  ghost function PullFlow(s: seq<Control>, t: string): int
  {
    if s == [] then 0 else PullDelta(s[0], t) + PullFlow(s[1..], t)
  }

  lemma {:induction false} PullFlowConcat(s: seq<Control>, v: seq<Control>, t: string)
    ensures PullFlow(s + v, t) == PullFlow(s, t) + PullFlow(v, t)
  {
    if s == [] {
      assert s + v == v;
    } else {
      assert (s + v)[1..] == s[1..] + v;
      PullFlowConcat(s[1..], v, t);
    }
  }

  lemma {:induction false} SubscribesTellNoPull(s: seq<Control>, t: string)
    requires forall c :: c in s ==> c.Subscribe?
    ensures PullFlow(s, t) == 0
  {
    if s != [] {
      assert s[0] in s;
      SubscribesTellNoPull(s[1..], t);
    }
  }

  // ----- what is wanted -----

  ghost function PullsFrom(pulls: multiset<(string, GatewayId)>, t: string): GatewayId -> nat
  {
    k => pulls[(t, k)]
  }

  /** Registrations for `t` of all neighbours but `a`. */
  ghost function OthersPulls(pulls: multiset<(string, GatewayId)>, t: string, a: GatewayId): nat
  {
    Sum(PullNeighbours(pulls, t) - {a}, PullsFrom(pulls, t))
  }

  /** How often the gateway wants to be asked for `t` through its neighbour `a`. */
  ghost function PullDemand(g: Gateway, t: string, a: GatewayId): nat
  {
    Count(g.pull, IsGlobal(t)) + OthersPulls(g.pulls, t, a)
  }

  ghost predicate NoPullDemand(g: Gateway, a: GatewayId)
  {
    && (forall s :: s in g.pull ==> s.scope != Global)
    && (forall e :: e in g.pulls ==> e.1 == a)
  }

  lemma SumExtended(s: set<GatewayId>, ks: set<GatewayId>, w: GatewayId -> nat)
    requires s <= ks && forall k :: k in ks - s ==> w(k) == 0
    ensures Sum(ks, w) == Sum(s, w)
  {
    assert ks == s + (ks - s);
    SumUnion(s, ks - s, w);
    SumZero(ks - s, w);
  }

  /** Any set of neighbours will do that has all those with registrations. */
  lemma OthersAmong(pulls: multiset<(string, GatewayId)>, t: string, a: GatewayId, ks: set<GatewayId>)
    requires PullNeighbours(pulls, t) <= ks
    ensures OthersPulls(pulls, t, a) == Sum(ks - {a}, PullsFrom(pulls, t))
  {
    var some := PullNeighbours(pulls, t) - {a};
    forall k | k in (ks - {a}) - some ensures PullsFrom(pulls, t)(k) == 0 {
      assert (t, k) in pulls ==> k in PullNeighbours(pulls, t);
    }
    SumExtended(some, ks - {a}, PullsFrom(pulls, t));
  }

  lemma OthersOneMore(pulls: multiset<(string, GatewayId)>, u: string, from: GatewayId, t: string, a: GatewayId)
    ensures OthersPulls(pulls + multiset{(u, from)}, t, a)
         == OthersPulls(pulls, t, a) + if u == t && from != a then 1 else 0
  {
    var more, ks := pulls + multiset{(u, from)}, PullNeighbours(pulls, t) + {from};
    assert PullNeighbours(more, t) <= ks;
    OthersAmong(pulls, t, a, ks);
    OthersAmong(more, t, a, ks);
    if u == t && from != a {
      SumChange(ks - {a}, PullsFrom(pulls, t), PullsFrom(more, t), from);
    } else {
      SumCongruent(ks - {a}, PullsFrom(pulls, t), PullsFrom(more, t));
    }
  }

  lemma NothingFromOthers(pulls: multiset<(string, GatewayId)>, t: string, a: GatewayId)
    ensures OthersPulls(pulls, t, a) == 0 <==> forall k :: (t, k) in pulls ==> k == a
  {
    SumZero(PullNeighbours(pulls, t) - {a}, PullsFrom(pulls, t));
    if OthersPulls(pulls, t, a) == 0 {
      forall k | (t, k) in pulls ensures k == a {
        assert k in PullNeighbours(pulls, t);
        assert k in PullNeighbours(pulls, t) - {a} ==> PullsFrom(pulls, t)(k) == 0;
      }
    } else {
      var k :| k in PullNeighbours(pulls, t) - {a} && PullsFrom(pulls, t)(k) != 0;
      assert (t, k) in pulls;
    }
  }

  /**
   There is no demand for any type exactly if there is neither a global entry nor another
   neighbour's registration.
   */
  lemma NoDemandIff(g: Gateway, a: GatewayId)
    ensures (forall t :: PullDemand(g, t, a) == 0) <==> NoPullDemand(g, a)
  {
    if NoPullDemand(g, a) {
      forall t ensures PullDemand(g, t, a) == 0 {
        CountPositive(g.pull, IsGlobal(t));
        NothingFromOthers(g.pulls, t, a);
      }
    }
    if forall t :: PullDemand(g, t, a) == 0 {
      forall s | s in g.pull ensures s.scope != Global {
        assert PullDemand(g, s.topic, a) == 0;
        CountPositive(g.pull, IsGlobal(s.topic));
        assert s.scope == Global ==> IsGlobal(s.topic)(s);
      }
      forall e | e in g.pulls ensures e.1 == a {
        assert PullDemand(g, e.0, a) == 0;
        NothingFromOthers(g.pulls, e.0, a);
        assert (e.0, e.1) in g.pulls;
      }
    }
  }

  // ----- single operations -----

  /** Registering tells each neighbour what the gateway's plugins want to be asked for. */
  lemma PullRegistrationTold(g: Gateway, topic: string, scope: OwnScope, h: Handle, k: GatewayId, t: string)
    requires k in g.links
    ensures var g' := RegisterPullInterest(g, topic, scope, h);
      k in g'.links &&
      PullFlow(g'.links[k].control, t) - PullFlow(g.links[k].control, t) ==
      Count(g'.pull, IsGlobal(t)) - Count(g.pull, IsGlobal(t))
  {
    PullFlowConcat(g.links[k].control, [RegisterPull(topic)], t);
    CountConcat(g.pull, [LocalSub(topic, h, scope)], IsGlobal(t));
  }

  /** The entry that a withdrawal removes, if there is one, is not global. */
  predicate WithdrawsLocal(g: Gateway, topic: string, h: Handle)
  {
    var i := FirstMatch(g.pull, topic, All, h);
    i == |g.pull| || g.pull[i].scope != Global
  }

  /** Withdrawing tells nobody, which is right if and only if the entry it removes, if any, was local. */
  lemma PullWithdrawalToldIffLocal(g: Gateway, topic: string, h: Handle, k: GatewayId)
    requires k in g.links
    ensures var g' := UnregisterPullInterest(g, topic, h);
      && k in g'.links
      && ((forall t :: PullFlow(g'.links[k].control, t) - PullFlow(g.links[k].control, t) ==
                       Count(g'.pull, IsGlobal(t)) - Count(g.pull, IsGlobal(t)))
          <==> WithdrawsLocal(g, topic, h))
  {
    var i := FirstMatch(g.pull, topic, All, h);
    if i < |g.pull| {
      forall t { CountRemove(g.pull, i, IsGlobal(t)); }
    }
  }

  /** A new link is told of no pull interest. */
  lemma NewLinkTellsNoPull(g: Gateway, id: GatewayId, t: string)
    ensures PullFlow(RegisterConnection(g, id).links[id].control, t) == 0
  {
    LocalReplayFlow(g.push, t);
    NeighbourReplayFlow(g.subs, id, t);
    SubscribesTellNoPull(LocalReplay(g.push) + NeighbourReplay(g.subs, id), t);
  }

  /** That is the demand if and only if there is none. */
  lemma NewLinkToldIff(g: Gateway, id: GatewayId)
    ensures (forall t :: PullFlow(RegisterConnection(g, id).links[id].control, t) == PullDemand(g, t, id))
            <==> NoPullDemand(g, id)
  {
    forall t ensures PullFlow(RegisterConnection(g, id).links[id].control, t) == 0 { NewLinkTellsNoPull(g, id, t); }
    NoDemandIff(g, id);
  }

  // ----- the network -----

  /** The link over which `b` tells `a` what it wants to be asked for, for one type. */
  ghost predicate PullBalanced(gb: Gateway, ga: Gateway, b: GatewayId, a: GatewayId, t: string)
  {
    if a in gb.links then ga.pulls[(t, b)] + PullFlow(gb.links[a].control, t) == PullDemand(gb, t, a)
    else ga.pulls[(t, b)] == 0
  }

  ghost predicate PullsConserved(n: Net)
  {
    forall a, b, t :: a in n.nodes && b in n.nodes && a != b ==>
      PullBalanced(n.nodes[b], n.nodes[a], b, a, t)
  }

  ghost predicate NoWithdrawal(g: Gateway)
  {
    forall k, c :: k in g.links && c in g.links[k].control ==> !c.UnregisterPull?
  }

  ghost predicate NoWithdrawals(n: Net)
  {
    forall a :: a in n.nodes ==> NoWithdrawal(n.nodes[a])
  }

  lemma BroadcastNoWithdrawal(g: Gateway, g': Gateway, except: set<GatewayId>, c: Control)
    requires NoWithdrawal(g) && !c.UnregisterPull? && g'.links == Broadcast(g.links, except, c)
    ensures NoWithdrawal(g')
  {
  }

  lemma ActNoWithdrawal(g: Gateway, s: LocalStep)
    requires NoWithdrawal(g)
    ensures NoWithdrawal(Act(g, s))
  {
    if s.DoRegisterData? {
      if s.scope == Global { BroadcastNoWithdrawal(g, Act(g, s), {}, Subscribe(s.topic)); }
    } else if s.DoUnregisterData? {
      if Act(g, s).links != g.links { BroadcastNoWithdrawal(g, Act(g, s), {}, Unsubscribe(s.topic)); }
    } else if s.DoRegisterPull? {
      if s.scope == Global { BroadcastNoWithdrawal(g, Act(g, s), {}, RegisterPull(s.topic)); }
    } else {
      TrafficKeepsControl(g, s);
      SameControlNoWithdrawal(g, Act(g, s));
    }
  }

  lemma SameControlNoWithdrawal(g: Gateway, g': Gateway)
    requires NoWithdrawal(g) && SameControl(g, g')
    ensures NoWithdrawal(g')
  {
    forall k, c | k in g'.links && c in g'.links[k].control ensures !c.UnregisterPull? {
      assert k in g'.links.Keys && k in g.links;
    }
  }

  lemma StepTellsNoWithdrawal(n: Net, s: Step)
    requires NoWithdrawals(n) && Enabled(n, s)
    ensures NoWithdrawals(Apply(n, s))
  {
    match s
    case Perform(at, step) => ActNoWithdrawal(n.nodes[at], step);
    case Connect(_, _) =>
    case Associate(from, to) =>
      LocalReplayFlow(n.nodes[to].push, "");
      NeighbourReplayFlow(n.nodes[to].subs, from, "");
    case DeliverControl(from, to) =>
      assert NoWithdrawal(n.nodes[from]);
      var c := n.nodes[from].links[to].control[0];
      var gt := ReceiveControl(n.nodes[to], from, c);
      BroadcastNoWithdrawal(n.nodes[to], gt, {from}, c);
    case DeliverData(from, to, i) =>
      TakeDataKeepsControl(n.nodes[from], to, i);
      SameControlNoWithdrawal(n.nodes[from], TakeData(n.nodes[from], to, i));
      ReceiveDataKeepsControl(n.nodes[to], from, n.nodes[from].links[to].data[i]);
      SameControlNoWithdrawal(n.nodes[to], ReceiveData(n.nodes[to], from, n.nodes[from].links[to].data[i]));
  }

  /** In no run whatever, as long as links stay up, is any gateway told that a pull interest has been withdrawn. */
  lemma {:induction false} NoWithdrawalEverTold(n: Net, run: seq<Step>, n': Net)
    requires NoWithdrawals(n) && Runs(n, run, n')
    ensures NoWithdrawals(n')
    decreases run
  {
    if run != [] {
      StepTellsNoWithdrawal(n, run[0]);
      NoWithdrawalEverTold(Apply(n, run[0]), run[1..], n');
    }
  }

  // ----- one gateway -----

  /** What `g'` has queued for `k` accounts for its changed demand. */
  ghost predicate PullTold(g: Gateway, g': Gateway, k: GatewayId, t: string)
    requires k in g.links && k in g'.links
  {
    PullFlow(g'.links[k].control, t) - PullFlow(g.links[k].control, t) == PullDemand(g', t, k) - PullDemand(g, t, k)
  }

  /** Agreeing on control messages, and on pull interests of plugins and of neighbours. */
  ghost predicate SamePulls(g: Gateway, g': Gateway)
  {
    SameControl(g, g') && g'.pull == g.pull && g'.pulls == g.pulls
  }

  lemma TakeDataKeepsPulls(g: Gateway, to: GatewayId, i: nat)
    requires to in g.links && i < |g.links[to].data|
    ensures SamePulls(g, TakeData(g, to, i))
  {
    TakeDataKeepsControl(g, to, i);
  }

  lemma ReceiveDataKeepsPulls(g: Gateway, from: GatewayId, d: Data)
    ensures SamePulls(g, ReceiveData(g, from, d))
  {
    ReceiveDataKeepsControl(g, from, d);
  }

  lemma BroadcastPullFlow(g: Gateway, except: set<GatewayId>, c: Control, k: GatewayId, t: string)
    requires k in g.links && k !in except
    ensures PullFlow(Broadcast(g.links, except, c)[k].control, t) == PullFlow(g.links[k].control, t) + PullDelta(c, t)
  {
    PullFlowConcat(g.links[k].control, [c], t);
  }

  lemma ActPullTold(g: Gateway, s: LocalStep, k: GatewayId, t: string)
    requires k in g.links && !s.DoUnregisterPull?
    ensures k in Act(g, s).links && PullTold(g, Act(g, s), k, t)
  {
    ActKeepsNeighbours(g, s);
    assert k in Act(g, s).links.Keys;
    if s.DoRegisterData? {
      BroadcastPullFlow(g, {}, Subscribe(s.topic), k, t);
    } else if s.DoUnregisterData? {
      BroadcastPullFlow(g, {}, Unsubscribe(s.topic), k, t);
    } else if s.DoRegisterPull? {
      PullRegistrationTold(g, s.topic, s.scope, s.h, k, t);
    } else {
      TrafficKeepsControl(g, s);
    }
  }

  /** A message from `from` changes what is registered for `from`, and the demand on all others. */
  lemma ReceivePullTold(g: Gateway, from: GatewayId, c: Control, k: GatewayId, t: string)
    requires k in g.links && !c.UnregisterPull?
    ensures k in ReceiveControl(g, from, c).links && PullTold(g, ReceiveControl(g, from, c), k, t)
  {
    if c.RegisterPull? { OthersOneMore(g.pulls, c.topic, from, t, k); }
    if k != from { BroadcastPullFlow(g, {from}, c, k, t); }
  }

  lemma ReceivePullHeld(g: Gateway, from: GatewayId, c: Control, b: GatewayId, t: string)
    requires !c.UnregisterPull?
    ensures ReceiveControl(g, from, c).pulls[(t, b)] ==
            g.pulls[(t, b)] + if b == from then PullDelta(c, t) else 0
  {
  }

  // ----- one link -----

  lemma TellerKeepsPullBalance(gb: Gateway, gb': Gateway, ga: Gateway, b: GatewayId, a: GatewayId, t: string)
    requires PullBalanced(gb, ga, b, a, t)
    requires a in gb.links <==> a in gb'.links
    requires a in gb.links ==> PullTold(gb, gb', a, t)
    ensures PullBalanced(gb', ga, b, a, t)
  {
  }

  lemma ArrivalKeepsPullBalance(gb: Gateway, ga: Gateway, b: GatewayId, a: GatewayId, t: string)
    requires a in gb.links && gb.links[a].control != [] && !gb.links[a].control[0].UnregisterPull?
    requires PullBalanced(gb, ga, b, a, t)
    ensures PullBalanced(TakeControl(gb, a), ReceiveControl(ga, b, gb.links[a].control[0]), b, a, t)
  {
    ReceivePullHeld(ga, b, gb.links[a].control[0], b, t);
  }

  // ----- one step -----

  lemma ReplacePullTeller(n: Net, x: GatewayId, g: Gateway)
    requires PullsConserved(n) && x in n.nodes
    requires g.pulls == n.nodes[x].pulls && g.links.Keys == n.nodes[x].links.Keys
    requires forall k, t :: k in g.links ==> PullTold(n.nodes[x], g, k, t)
    ensures PullsConserved(n.(nodes := n.nodes[x := g]))
  {
    var nodes := n.nodes[x := g];
    forall a, b, t | a in n.nodes && b in n.nodes && a != b ensures PullBalanced(nodes[b], nodes[a], b, a, t) {
      assert PullBalanced(n.nodes[b], n.nodes[a], b, a, t);
      if b == x {
        assert a in g.links.Keys <==> a in n.nodes[x].links.Keys;
        TellerKeepsPullBalance(n.nodes[x], g, n.nodes[a], b, a, t);
      }
    }
  }

  lemma SamePullsConserved(n: Net, x: GatewayId, g: Gateway)
    requires PullsConserved(n) && x in n.nodes && SamePulls(n.nodes[x], g)
    ensures PullsConserved(n.(nodes := n.nodes[x := g]))
  {
    forall k, t | k in g.links ensures PullTold(n.nodes[x], g, k, t) {
      assert k in g.links.Keys;
    }
    ReplacePullTeller(n, x, g);
  }

  lemma ActConservesPulls(n: Net, at: GatewayId, step: LocalStep)
    requires WellFormed(n) && PullsConserved(n) && at in n.nodes && !step.DoUnregisterPull?
    ensures PullsConserved(Apply(n, Perform(at, step)))
  {
    var g := n.nodes[at];
    ActKeepsNeighbours(g, step);
    forall k, t | k in Act(g, step).links ensures PullTold(g, Act(g, step), k, t) {
      assert k in g.links.Keys;
      ActPullTold(g, step, k, t);
    }
    ReplacePullTeller(n, at, Act(g, step));
  }

  lemma WithdrawalConservesIff(n: Net, at: GatewayId, topic: string, h: Handle)
    requires WellFormed(n) && PullsConserved(n) && at in n.nodes
    ensures PullsConserved(Apply(n, Perform(at, DoUnregisterPull(topic, h))))
            <==> (WithdrawsLocal(n.nodes[at], topic, h) || n.nodes[at].links.Keys == {})
  {
    var g' := UnregisterPullInterest(n.nodes[at], topic, h);
    assert Apply(n, Perform(at, DoUnregisterPull(topic, h))) == n.(nodes := n.nodes[at := g']);
    if WithdrawsLocal(n.nodes[at], topic, h) || n.nodes[at].links.Keys == {} {
      LocalWithdrawalConserves(n, at, topic, h);
    } else {
      GlobalWithdrawalBreaks(n, at, topic, h);
    }
  }

  lemma LocalWithdrawalConserves(n: Net, at: GatewayId, topic: string, h: Handle)
    requires PullsConserved(n) && at in n.nodes
    requires WithdrawsLocal(n.nodes[at], topic, h) || n.nodes[at].links.Keys == {}
    ensures PullsConserved(n.(nodes := n.nodes[at := UnregisterPullInterest(n.nodes[at], topic, h)]))
  {
    var g := n.nodes[at];
    var g' := UnregisterPullInterest(g, topic, h);
    forall k, t | k in g'.links ensures PullTold(g, g', k, t) {
      assert k in g.links.Keys;
      LocalWithdrawalTold(g, topic, h, k, t);
    }
    ReplacePullTeller(n, at, g');
  }

  lemma GlobalWithdrawalBreaks(n: Net, at: GatewayId, topic: string, h: Handle)
    requires WellFormed(n) && PullsConserved(n) && at in n.nodes
    requires !WithdrawsLocal(n.nodes[at], topic, h) && n.nodes[at].links.Keys != {}
    ensures !PullsConserved(n.(nodes := n.nodes[at := UnregisterPullInterest(n.nodes[at], topic, h)]))
  {
    var g := n.nodes[at];
    var g' := UnregisterPullInterest(g, topic, h);
    var nodes := n.nodes[at := g'];
    var k :| k in g.links.Keys;
    assert UpToDate(n, at) && (at, k) in n.conns && k in n.nodes && k != at;
    assert PullBalanced(g, n.nodes[k], at, k, topic);
    GlobalWithdrawalUnbalances(g, n.nodes[k], at, k, topic, h);
    assert !PullBalanced(nodes[at], nodes[k], at, k, topic);
  }

  lemma LocalWithdrawalTold(g: Gateway, topic: string, h: Handle, k: GatewayId, t: string)
    requires k in g.links && WithdrawsLocal(g, topic, h)
    ensures PullTold(g, UnregisterPullInterest(g, topic, h), k, t)
  {
    PullWithdrawalToldIffLocal(g, topic, h, k);
  }

  lemma GlobalWithdrawalUnbalances(g: Gateway, ga: Gateway, b: GatewayId, a: GatewayId, topic: string, h: Handle)
    requires a in g.links && PullBalanced(g, ga, b, a, topic) && !WithdrawsLocal(g, topic, h)
    ensures !PullBalanced(UnregisterPullInterest(g, topic, h), ga, b, a, topic)
  {
    CountRemove(g.pull, FirstMatch(g.pull, topic, All, h), IsGlobal(topic));
  }

  lemma AssociationConservesIff(n: Net, from: GatewayId, to: GatewayId)
    requires WellFormed(n) && PullsConserved(n) && Enabled(n, Associate(from, to))
    ensures PullsConserved(Apply(n, Associate(from, to))) <==> NoPullDemand(n.nodes[to], from)
  {
    var n', g := Apply(n, Associate(from, to)), n.nodes[to];
    var g' := RegisterConnection(g, from);
    assert UpToDate(n, to) && from != to && from !in g.links;
    forall t ensures PullBalanced(g', n.nodes[from], to, from, t) <==> PullDemand(g, t, from) == 0 {
      assert PullBalanced(g, n.nodes[from], to, from, t);
      NewLinkBalancedIff(g, n.nodes[from], to, from, t);
    }
    NoDemandIff(g, from);
    if NoPullDemand(g, from) {
      forall a, b, t | a in n.nodes && b in n.nodes && a != b ensures PullBalanced(n'.nodes[b], n'.nodes[a], b, a, t) {
        assert PullBalanced(n.nodes[b], n.nodes[a], b, a, t);
        assert b == to && a == from ==> PullBalanced(g', n.nodes[from], to, from, t);
        if !(b == to && a == from) { AssociatedElsewhere(n, from, to, a, b, t); }
      }
    }
    if PullsConserved(n') {
      forall t ensures PullDemand(g, t, from) == 0 { assert PullBalanced(n'.nodes[to], n'.nodes[from], to, from, t); }
    }
  }

  lemma NewLinkBalancedIff(gb: Gateway, ga: Gateway, b: GatewayId, a: GatewayId, t: string)
    requires ga.pulls[(t, b)] == 0
    ensures PullBalanced(RegisterConnection(gb, a), ga, b, a, t) <==> PullDemand(gb, t, a) == 0
  {
    NewLinkTellsNoPull(gb, a, t);
  }

  lemma AssociatedElsewhere(n: Net, from: GatewayId, to: GatewayId, a: GatewayId, b: GatewayId, t: string)
    requires Enabled(n, Associate(from, to)) && a in n.nodes && b in n.nodes && !(b == to && a == from)
    requires PullBalanced(n.nodes[b], n.nodes[a], b, a, t)
    ensures var nodes := Apply(n, Associate(from, to)).nodes; PullBalanced(nodes[b], nodes[a], b, a, t)
  {
  }

  lemma DeliveryConservesPulls(n: Net, from: GatewayId, to: GatewayId)
    requires WellFormed(n) && PullsConserved(n) && NoWithdrawals(n) && Enabled(n, DeliverControl(from, to))
    ensures PullsConserved(Apply(n, DeliverControl(from, to)))
  {
    assert NoWithdrawal(n.nodes[from]);
    var nodes := Apply(n, DeliverControl(from, to)).nodes;
    StepKeepsNodes(n, DeliverControl(from, to));
    forall a, b, t | a in nodes && b in nodes && a != b ensures PullBalanced(nodes[b], nodes[a], b, a, t) {
      assert a in n.nodes.Keys && b in n.nodes.Keys;
      assert PullBalanced(n.nodes[b], n.nodes[a], b, a, t);
      DeliveredPullBalance(n, from, to, a, b, t);
    }
  }

  lemma DeliveredPullBalance(n: Net, from: GatewayId, to: GatewayId, a: GatewayId, b: GatewayId, t: string)
    requires Enabled(n, DeliverControl(from, to)) && !n.nodes[from].links[to].control[0].UnregisterPull?
    requires a in n.nodes && b in n.nodes && a != b && PullBalanced(n.nodes[b], n.nodes[a], b, a, t)
    ensures var nodes := Apply(n, DeliverControl(from, to)).nodes; PullBalanced(nodes[b], nodes[a], b, a, t)
  {
    var gf, gt := n.nodes[from], n.nodes[to];
    var c := gf.links[to].control[0];
    if b == from && a == to {
      ArrivalKeepsPullBalance(gf, gt, from, to, t);
    } else if b == to {
      ReceiverStaysPullBalanced(gt, from, c, n.nodes[a], b, a, t);
      assert (if a == from then TakeControl(gf, to) else n.nodes[a]).pulls == n.nodes[a].pulls;
    } else if a == to {
      ReceivePullHeld(gt, from, c, b, t);
    } else if b == from {
      SenderStaysPullBalanced(gf, to, n.nodes[a], b, a, t);
    }
  }

  lemma ReceiverStaysPullBalanced(gt: Gateway, from: GatewayId, c: Control, ga: Gateway, b: GatewayId, a: GatewayId,
                                  t: string)
    requires PullBalanced(gt, ga, b, a, t) && !c.UnregisterPull?
    ensures PullBalanced(ReceiveControl(gt, from, c), ga, b, a, t)
  {
    assert a in ReceiveControl(gt, from, c).links.Keys <==> a in gt.links.Keys;
    if a in gt.links { ReceivePullTold(gt, from, c, a, t); }
  }

  lemma SenderStaysPullBalanced(gf: Gateway, to: GatewayId, ga: Gateway, b: GatewayId, a: GatewayId, t: string)
    requires to in gf.links && gf.links[to].control != [] && a != to && PullBalanced(gf, ga, b, a, t)
    ensures PullBalanced(TakeControl(gf, to), ga, b, a, t)
  {
    assert a in TakeControl(gf, to).links.Keys <==> a in gf.links.Keys;
  }

  lemma DataConservesPulls(n: Net, from: GatewayId, to: GatewayId, i: nat)
    requires PullsConserved(n) && Enabled(n, DeliverData(from, to, i))
    ensures PullsConserved(Apply(n, DeliverData(from, to, i)))
  {
    var gf, gt := n.nodes[from], n.nodes[to];
    TakeDataKeepsPulls(gf, to, i);
    ReceiveDataKeepsPulls(gt, from, gf.links[to].data[i]);
    SamePullsConserved(n, from, TakeData(gf, to, i));
    SamePullsConserved(n.(nodes := n.nodes[from := TakeData(gf, to, i)]), to,
                       ReceiveData(gt, from, gf.links[to].data[i]));
  }

  /**
   Two things a step can do wrong: withdraw a global entry when there are neighbours, and greet
   when there is demand.
   */
  ghost predicate KeepsPulls(n: Net, s: Step)
    requires Enabled(n, s)
  {
    match s
    case Perform(at, DoUnregisterPull(topic, h)) =>
      WithdrawsLocal(n.nodes[at], topic, h) || n.nodes[at].links.Keys == {}
    case Associate(from, to) => NoPullDemand(n.nodes[to], from)
    case _ => true
  }

  lemma StepConservesPullsIff(n: Net, s: Step)
    requires WellFormed(n) && NoWithdrawals(n) && PullsConserved(n) && Enabled(n, s)
    ensures PullsConserved(Apply(n, s)) <==> KeepsPulls(n, s)
  {
    match s
    case Perform(at, step) =>
      if step.DoUnregisterPull? {
        WithdrawalConservesIff(n, at, step.topic, step.h);
      } else {
        ActConservesPulls(n, at, step);
      }
    case Connect(_, _) =>
    case Associate(from, to) => AssociationConservesIff(n, from, to);
    case DeliverControl(from, to) => DeliveryConservesPulls(n, from, to);
    case DeliverData(from, to, i) => DataConservesPulls(n, from, to, i);
  }

  // ----- runs -----

  ghost predicate AllKeepPulls(n: Net, run: seq<Step>, n': Net)
    requires Runs(n, run, n')
    decreases run
  {
    run == [] || (KeepsPulls(n, run[0]) && AllKeepPulls(Apply(n, run[0]), run[1..], n'))
  }

  /** Pull interests are conserved in every state of the run. */
  ghost predicate PullsConservedThroughout(n: Net, run: seq<Step>, n': Net)
    requires Runs(n, run, n')
    decreases run
  {
    PullsConserved(n) && (run == [] || PullsConservedThroughout(Apply(n, run[0]), run[1..], n'))
  }

  lemma {:induction false} RunConservesPullsIff(n: Net, run: seq<Step>, n': Net)
    requires WellFormed(n) && NoWithdrawals(n) && PullsConserved(n) && Runs(n, run, n')
    ensures PullsConservedThroughout(n, run, n') <==> AllKeepPulls(n, run, n')
    ensures AllKeepPulls(n, run, n') ==> PullsConserved(n')
    decreases run
  {
    if run != [] {
      var n1 := Apply(n, run[0]);
      StepConservesPullsIff(n, run[0]);
      if PullsConserved(n1) {
        StepKeepsWellFormed(n, run[0]);
        StepTellsNoWithdrawal(n, run[0]);
        RunConservesPullsIff(n1, run[1..], n');
      } else if run[1..] != [] {
        assert !PullsConservedThroughout(n1, run[1..], n');
      }
    }
  }

  lemma InitialConservesPulls(n: Net)
    requires Initial(n)
    ensures WellFormed(n) && NoWithdrawals(n) && PullsConserved(n)
  {
    InitialWellFormed(n);
  }

  /**
   Over every run from the start: on every link and in every state what is registered and
   under way is what is wanted, exactly if each association is received at a gateway without
   pull demand and each withdrawal at a gateway with neighbours removes no global entry.
   */
  lemma PullInterestsConservedIff(n0: Net, run: seq<Step>, n: Net)
    requires Initial(n0) && Runs(n0, run, n)
    ensures PullsConservedThroughout(n0, run, n) <==> AllKeepPulls(n0, run, n)
    ensures AllKeepPulls(n0, run, n) ==> forall a, b, t :: a in n.nodes && b in n.nodes && a in n.nodes[b].links ==>
              n.nodes[a].pulls[(t, b)] + PullFlow(n.nodes[b].links[a].control, t) == PullDemand(n.nodes[b], t, a)
  {
    InitialConservesPulls(n0);
    RunConservesPullsIff(n0, run, n);
    RunKeepsWellFormed(n0, run, n);
    if AllKeepPulls(n0, run, n) {
      forall a, b, t | a in n.nodes && b in n.nodes && a in n.nodes[b].links
        ensures n.nodes[a].pulls[(t, b)] + PullFlow(n.nodes[b].links[a].control, t) == PullDemand(n.nodes[b], t, a)
      {
        assert UpToDate(n, b) && (b, a) in n.conns;
        assert PullBalanced(n.nodes[b], n.nodes[a], b, a, t);
      }
    }
  }
}
