/**
 Conservation of subscriptions on every link: what a gateway has told its neighbour,
 whether it has arrived or is still under way, is what the gateway wants to receive
 on behalf of its own plugins and of its other neighbours.
 */
module Conservation {
  import opened Sums
  import opened Topology
  import opened Tables
  import opened Network

  ghost function IsGlobal(t: string): LocalSub -> bool
  {
    (s: LocalSub) => s.topic == t && s.scope == Global
  }

  ghost function IsFrom(t: string, b: GatewayId): NeighbourSub -> bool
  {
    (s: NeighbourSub) => s.topic == t && s.neighbour == b
  }

  ghost function NotFrom(t: string, a: GatewayId): NeighbourSub -> bool
  {
    (s: NeighbourSub) => s.topic == t && s.neighbour != a
  }

  /** Global registrations of the gateway's own plugins for `t`. */
  ghost function Wanted(g: Gateway, t: string): nat
  {
    Count(g.push, IsGlobal(t))
  }

  /** References that the gateway counts for its neighbour `b`. */
  ghost function Held(g: Gateway, t: string, b: GatewayId): nat
  {
    Count(g.subs, IsFrom(t, b))
  }

  /** What the gateway wants from its neighbour `a`. */
  ghost function Demand(g: Gateway, t: string, a: GatewayId): nat
  {
    Wanted(g, t) + Count(g.subs, NotFrom(t, a))
  }

  ghost function Delta(c: Control, t: string): int
  {
    if c == Subscribe(t) then 1 else if c == Unsubscribe(t) then -1 else 0
  }

  /** Subscribes less unsubscribes for `t` among the messages. */
  ghost function Flow(s: seq<Control>, t: string): int
  {
    if s == [] then 0 else Delta(s[0], t) + Flow(s[1..], t)
  }

  /** Starting from `held`, no message takes the count below zero. */
  ghost predicate NeverNegative(held: int, s: seq<Control>, t: string)
    decreases s
  {
    held >= 0 && (s != [] ==> NeverNegative(held + Delta(s[0], t), s[1..], t))
  }

  lemma {:induction false} NeverNegativeOnPrefixes(held: int, s: seq<Control>, t: string)
    ensures NeverNegative(held, s, t) <==> forall i :: 0 <= i <= |s| ==> held + Flow(s[..i], t) >= 0
    decreases s
  {
    if s != [] {
      var next := held + Delta(s[0], t);
      NeverNegativeOnPrefixes(next, s[1..], t);
      forall i | 1 <= i <= |s| ensures held + Flow(s[..i], t) == next + Flow(s[1..][..i - 1], t) {
        assert s[..i][1..] == s[1..][..i - 1];
      }
      if forall i :: 0 <= i <= |s| ==> held + Flow(s[..i], t) >= 0 {
        forall i | 0 <= i <= |s[1..]| ensures next + Flow(s[1..][..i], t) >= 0 {
          assert held + Flow(s[..i + 1], t) >= 0;
        }
        assert held + Flow(s[..0], t) >= 0;
      }
      if NeverNegative(held, s, t) {
        forall i | 0 <= i <= |s| ensures held + Flow(s[..i], t) >= 0 {
          if i > 0 { assert next + Flow(s[1..][..i - 1], t) >= 0; }
        }
      }
    } else {
      assert s[..0] == [];
    }
  }

  lemma {:induction false} FlowConcat(s: seq<Control>, u: seq<Control>, t: string)
    ensures Flow(s + u, t) == Flow(s, t) + Flow(u, t)
  {
    if s == [] {
      assert s + u == u;
    } else {
      assert (s + u)[1..] == s[1..] + u;
      FlowConcat(s[1..], u, t);
    }
  }

  lemma {:induction false} NeverNegativeAppend(held: int, s: seq<Control>, c: Control, t: string)
    requires NeverNegative(held, s, t) && held + Flow(s, t) + Delta(c, t) >= 0
    ensures NeverNegative(held, s + [c], t)
    decreases s
  {
    if s == [] {
      assert s + [c] == [c];
      assert NeverNegative(held + Delta(c, t), [], t);
    } else {
      assert (s + [c])[1..] == s[1..] + [c];
      NeverNegativeAppend(held + Delta(s[0], t), s[1..], c, t);
    }
  }

  /** The link over which `b` tells `a` what it wants, for one type. */
  ghost predicate Balanced(gb: Gateway, ga: Gateway, b: GatewayId, a: GatewayId, t: string)
  {
    if a in gb.links then
      && Held(ga, t, b) + Flow(gb.links[a].control, t) == Demand(gb, t, a)
      && NeverNegative(Held(ga, t, b), gb.links[a].control, t)
    else
      Held(ga, t, b) == 0
  }

  ghost predicate Conserved(n: Net)
  {
    forall a, b, t :: a in n.nodes && b in n.nodes && a != b ==>
      Balanced(n.nodes[b], n.nodes[a], b, a, t)
  }

  /** What holds of every state of every run. */
  ghost predicate Good(n: Net)
  {
    WellFormed(n) && Conserved(n)
  }

  // ----- one gateway -----

  /** `g'` has queued at most one more message for `k`, and that accounts for its changed demand. */
  ghost predicate Told(g: Gateway, g': Gateway, k: GatewayId, t: string)
    requires k in g.links && k in g'.links
  {
    && (g'.links[k].control == g.links[k].control ||
        exists c :: g'.links[k].control == g.links[k].control + [c])
    && Flow(g'.links[k].control, t) - Flow(g.links[k].control, t) == Demand(g', t, k) - Demand(g, t, k)
  }

  lemma ToldBroadcast(g: Gateway, except: set<GatewayId>, c: Control, k: GatewayId, t: string)
    requires k in g.links && k !in except
    ensures Flow(Broadcast(g.links, except, c)[k].control, t) == Flow(g.links[k].control, t) + Delta(c, t)
  {
    FlowConcat(g.links[k].control, [c], t);
  }

  lemma RegisterTells(g: Gateway, topic: string, scope: OwnScope, h: Handle, k: GatewayId, t: string)
    requires k in g.links
    ensures Told(g, RegisterData(g, topic, scope, h), k, t)
  {
    CountConcat(g.push, [LocalSub(topic, h, scope)], IsGlobal(t));
    ToldBroadcast(g, {}, Subscribe(topic), k, t);
  }

  lemma UnregisterTells(g: Gateway, topic: string, scope: Scope, h: Handle, k: GatewayId, t: string)
    requires k in g.links
    ensures Told(g, UnregisterData(g, topic, scope, h), k, t)
  {
    var i := FirstMatch(g.push, topic, scope, h);
    if i < |g.push| {
      CountRemove(g.push, i, IsGlobal(t));
      ToldBroadcast(g, {}, Unsubscribe(topic), k, t);
    }
  }

  lemma SendKeepsControl(g: Gateway, targets: set<GatewayId>, d: Data)
    ensures SameControl(g, g.(links := SendTo(g.links, targets, d)))
  {}

  /** Pushes, pulls and answers leave subscriptions and control messages alone. */
  lemma TrafficKeepsControl(g: Gateway, s: LocalStep)
    requires s.DoPush? || s.DoPull? || s.DoAnswer? || s.DoForget? || s.DoUnregisterPull?
    ensures SameControl(g, Act(g, s))
  {
    match s
    case DoUnregisterPull(_, _) =>
    case DoPush(_, topic, body, _, _, _) => SendKeepsControl(g, NeighboursFor(g.subs, topic), Push(topic, body));
    case DoPull(_, pid, topic, body, _) =>
      SendKeepsControl(g, PullNeighbours(g.pulls, topic), PullRequest(pid, topic, body));
    case DoAnswer(pid, body) =>
      if pid in g.routes { SendKeepsControl(g, {g.routes[pid]}, PullResponse(pid, body)); }
    case DoForget(_, _) =>
  }

  lemma SameControlTells(g: Gateway, g': Gateway, k: GatewayId, t: string)
    requires SameControl(g, g') && k in g.links
    ensures k in g'.links && Told(g, g', k, t)
  {
    assert k in g'.links.Keys;
  }

  lemma ActTells(g: Gateway, s: LocalStep, k: GatewayId, t: string)
    requires k in g.links
    ensures k in Act(g, s).links && Told(g, Act(g, s), k, t)
  {
    if s.DoRegisterData? {
      RegisterTells(g, s.topic, s.scope, s.h, k, t);
    } else if s.DoUnregisterData? {
      UnregisterTells(g, s.topic, s.anyScope, s.h, k, t);
    } else if s.DoRegisterPull? {
      ToldBroadcast(g, {}, RegisterPull(s.topic), k, t);
    } else {
      TrafficKeepsControl(g, s);
      SameControlTells(g, Act(g, s), k, t);
    }
  }

  /** A message from `from` changes what is held for `from`, and nothing else that is held. */
  lemma ReceiveCounts(g: Gateway, from: GatewayId, c: Control, b: GatewayId, t: string)
    requires c.Unsubscribe? ==> Held(g, c.topic, from) > 0
    ensures Held(ReceiveControl(g, from, c), t, b) == Held(g, t, b) + (if b == from then Delta(c, t) else 0)
    ensures Demand(ReceiveControl(g, from, c), t, b) == Demand(g, t, b) + (if b != from then Delta(c, t) else 0)
  {
    match c
    case Subscribe(topic) => EntryCounts(g.subs, topic, from, b, t);
    case Unsubscribe(topic) => EntryUncounts(g.subs, topic, from, b, t);
    case _ =>
  }

  lemma EntryCounts(subs: seq<NeighbourSub>, topic: string, from: GatewayId, b: GatewayId, t: string)
    ensures var subs' := subs + [NeighbourSub(topic, from)];
      && Count(subs', IsFrom(t, b)) == Count(subs, IsFrom(t, b)) + (if b == from && t == topic then 1 else 0)
      && Count(subs', NotFrom(t, b)) == Count(subs, NotFrom(t, b)) + (if b != from && t == topic then 1 else 0)
  {
    CountConcat(subs, [NeighbourSub(topic, from)], IsFrom(t, b));
    CountConcat(subs, [NeighbourSub(topic, from)], NotFrom(t, b));
  }

  lemma EntryUncounts(subs: seq<NeighbourSub>, topic: string, from: GatewayId, b: GatewayId, t: string)
    requires Count(subs, IsFrom(topic, from)) > 0
    ensures var subs' := Without(subs, IndexOf(subs, NeighbourSub(topic, from)));
      && Count(subs', IsFrom(t, b)) == Count(subs, IsFrom(t, b)) - (if b == from && t == topic then 1 else 0)
      && Count(subs', NotFrom(t, b)) == Count(subs, NotFrom(t, b)) - (if b != from && t == topic then 1 else 0)
  {
    CountPositive(subs, IsFrom(topic, from));
    var i := IndexOf(subs, NeighbourSub(topic, from));
    CountRemove(subs, i, IsFrom(t, b));
    CountRemove(subs, i, NotFrom(t, b));
  }

  lemma ReceiveTells(g: Gateway, from: GatewayId, c: Control, k: GatewayId, t: string)
    requires k in g.links
    requires c.Unsubscribe? ==> Held(g, c.topic, from) > 0
    ensures Told(g, ReceiveControl(g, from, c), k, t)
  {
    ReceiveCounts(g, from, c, k, t);
    if k != from { ToldBroadcast(g, {from}, c, k, t); }
  }

  lemma {:induction false} LocalReplayFlow(push: seq<LocalSub>, t: string)
    ensures Flow(LocalReplay(push), t) == Count(push, IsGlobal(t))
    ensures forall c :: c in LocalReplay(push) ==> c.Subscribe?
  {
    if push != [] {
      LocalReplayFlow(push[1..], t);
      if push[0].scope == Global {
        FlowConcat([Subscribe(push[0].topic)], LocalReplay(push[1..]), t);
      } else {
        assert LocalReplay(push) == LocalReplay(push[1..]);
      }
    }
  }

  lemma {:induction false} NeighbourReplayFlow(subs: seq<NeighbourSub>, id: GatewayId, t: string)
    ensures Flow(NeighbourReplay(subs, id), t) == Count(subs, NotFrom(t, id))
    ensures forall c :: c in NeighbourReplay(subs, id) ==> c.Subscribe?
  {
    if subs != [] {
      NeighbourReplayFlow(subs[1..], id, t);
      if subs[0].neighbour != id {
        FlowConcat([Subscribe(subs[0].topic)], NeighbourReplay(subs[1..], id), t);
      } else {
        assert NeighbourReplay(subs, id) == NeighbourReplay(subs[1..], id);
      }
    }
  }

  lemma {:induction false} SubscribesNeverNegative(held: nat, s: seq<Control>, t: string)
    requires forall c :: c in s ==> c.Subscribe?
    ensures NeverNegative(held, s, t)
    decreases s
  {
    if s != [] {
      assert s[0] in s;
      SubscribesNeverNegative(held + Delta(s[0], t), s[1..], t);
    }
  }

  /** A new link starts out balanced: the replay tells exactly the demand. */
  lemma ReplayBalances(gb: Gateway, ga: Gateway, b: GatewayId, a: GatewayId, t: string)
    requires Held(ga, t, b) == 0
    ensures Balanced(RegisterConnection(gb, a), ga, b, a, t)
  {
    var s := LocalReplay(gb.push) + NeighbourReplay(gb.subs, a);
    LocalReplayFlow(gb.push, t);
    NeighbourReplayFlow(gb.subs, a, t);
    FlowConcat(LocalReplay(gb.push), NeighbourReplay(gb.subs, a), t);
    SubscribesNeverNegative(0, s, t);
  }

  // ----- one link -----

  /** The teller changed its demand and queued the difference. */
  lemma TellerKeepsBalance(gb: Gateway, gb': Gateway, ga: Gateway, b: GatewayId, a: GatewayId, t: string)
    requires Balanced(gb, ga, b, a, t)
    requires a in gb.links <==> a in gb'.links
    requires a in gb.links ==> Told(gb, gb', a, t)
    ensures Balanced(gb', ga, b, a, t)
  {
    if a in gb.links && gb'.links[a].control != gb.links[a].control {
      var c :| gb'.links[a].control == gb.links[a].control + [c];
      FlowConcat(gb.links[a].control, [c], t);
      NeverNegativeAppend(Held(ga, t, b), gb.links[a].control, c, t);
    }
  }

  /** Arrival moves one message from the queue into the count. */
  lemma ArrivalKeepsBalance(gb: Gateway, ga: Gateway, b: GatewayId, a: GatewayId, t: string)
    requires a in gb.links && gb.links[a].control != []
    requires forall u :: Balanced(gb, ga, b, a, u)
    ensures Balanced(TakeControl(gb, a), ReceiveControl(ga, b, gb.links[a].control[0]), b, a, t)
    ensures gb.links[a].control[0].Unsubscribe? ==> Held(ga, gb.links[a].control[0].topic, b) > 0
  {
    var c := gb.links[a].control[0];
    if c.Unsubscribe? {
      assert Balanced(gb, ga, b, a, c.topic);
      assert NeverNegative(Held(ga, c.topic, b) - 1, gb.links[a].control[1..], c.topic);
    }
    assert Balanced(gb, ga, b, a, t);
    ReceiveCounts(ga, b, c, b, t);
  }

  // ----- one step -----

  lemma InitialGood(n: Net)
    requires Initial(n)
    ensures Good(n)
  {
    InitialWellFormed(n);
  }

  /** One gateway changes its demand, tells its neighbours, and holds what it held. */
  lemma ReplaceTeller(n: Net, x: GatewayId, g: Gateway)
    requires Conserved(n) && x in n.nodes
    requires g.subs == n.nodes[x].subs && g.links.Keys == n.nodes[x].links.Keys
    requires forall k, t :: k in g.links ==> Told(n.nodes[x], g, k, t)
    ensures Conserved(n.(nodes := n.nodes[x := g]))
  {
    var nodes := n.nodes[x := g];
    forall a, b, t | a in n.nodes && b in n.nodes && a != b ensures Balanced(nodes[b], nodes[a], b, a, t) {
      assert Balanced(n.nodes[b], n.nodes[a], b, a, t);
      if b == x {
        assert a in g.links.Keys <==> a in n.nodes[x].links.Keys;
        TellerKeepsBalance(n.nodes[x], g, n.nodes[a], b, a, t);
      }
    }
  }

  lemma LocalKeepsConserved(n: Net, at: GatewayId, step: LocalStep)
    requires Good(n) && Enabled(n, Perform(at, step))
    ensures Conserved(Apply(n, Perform(at, step)))
  {
    var g := n.nodes[at];
    assert UpToDate(n, at);
    ActKeepsConnected(g, step);
    forall k, t | k in Act(g, step).links ensures Told(g, Act(g, step), k, t) {
      assert k in g.links.Keys;
      ActTells(g, step, k, t);
    }
    ReplaceTeller(n, at, Act(g, step));
  }

  lemma AssociateKeepsConserved(n: Net, from: GatewayId, to: GatewayId)
    requires Good(n) && Enabled(n, Associate(from, to))
    ensures Conserved(Apply(n, Associate(from, to)))
  {
    var n' := Apply(n, Associate(from, to));
    forall a, b, t | a in n.nodes && b in n.nodes && a != b
      ensures Balanced(n'.nodes[b], n'.nodes[a], b, a, t)
    {
      assert Balanced(n.nodes[b], n.nodes[a], b, a, t);
      assert UpToDate(n, to);
      if b == to && a == from {
        assert from !in n.nodes[to].links;
        ReplayBalances(n.nodes[to], n.nodes[from], to, from, t);
      }
    }
  }

  /** What an arrival does at both ends of its link, and what the receiver tells its other neighbours. */
  lemma ArrivalSpreads(gf: Gateway, gt: Gateway, from: GatewayId, to: GatewayId)
    requires to in gf.links && gf.links[to].control != [] && Connected(gt) && from in gt.links
    requires forall u :: Balanced(gf, gt, from, to, u)
    ensures var gt' := ReceiveControl(gt, from, gf.links[to].control[0]);
      && gt'.links.Keys == gt.links.Keys
      && (forall u :: Balanced(TakeControl(gf, to), gt', from, to, u))
      && (forall b, t :: b != from ==> Held(gt', t, b) == Held(gt, t, b))
      && (forall k, t :: k in gt'.links ==> Told(gt, gt', k, t))
  {
    var c := gf.links[to].control[0];
    var gt' := ReceiveControl(gt, from, c);
    ReceiveControlKeepsConnected(gt, from, c);
    forall u ensures Balanced(TakeControl(gf, to), gt', from, to, u) {
      ArrivalKeepsBalance(gf, gt, from, to, u);
    }
    ArrivalKeepsBalance(gf, gt, from, to, "");
    forall b, t | b != from ensures Held(gt', t, b) == Held(gt, t, b) {
      ReceiveCounts(gt, from, c, b, t);
    }
    forall k, t | k in gt'.links ensures k in gt.links && Told(gt, gt', k, t) {
      assert k in gt.links.Keys;
      ReceiveTells(gt, from, c, k, t);
    }
  }

  lemma BothWays(n: Net, from: GatewayId, to: GatewayId)
    requires Good(n) && Open(n, from, to)
    ensures Connected(n.nodes[to]) && from in n.nodes[to].links
    ensures forall u :: Balanced(n.nodes[from], n.nodes[to], from, to, u)
  {
    LinkedBack(n, from, to);
    assert UpToDate(n, to);
  }

  lemma DeliverKeepsConserved(n: Net, from: GatewayId, to: GatewayId)
    requires Good(n) && Enabled(n, DeliverControl(from, to))
    ensures Conserved(Apply(n, DeliverControl(from, to)))
  {
    var gf, gt := n.nodes[from], n.nodes[to];
    BothWays(n, from, to);
    ArrivalSpreads(gf, gt, from, to);
    assert TakeControl(gf, to).links.Keys == gf.links.Keys;
    ReplacePair(n, from, to, TakeControl(gf, to), ReceiveControl(gt, from, gf.links[to].control[0]));
  }

  /** A message has moved from `from` to `to`, and `to` has told its neighbours. */
  lemma ReplacePair(n: Net, from: GatewayId, to: GatewayId, gf: Gateway, gt: Gateway)
    requires Conserved(n) && from in n.nodes && to in n.nodes && from != to
    requires gf.push == n.nodes[from].push && gf.subs == n.nodes[from].subs
    requires gf.links.Keys == n.nodes[from].links.Keys && gt.links.Keys == n.nodes[to].links.Keys
    requires forall k :: k in gf.links && k != to ==> gf.links[k] == n.nodes[from].links[k]
    requires forall t :: Balanced(gf, gt, from, to, t)
    requires forall b, t :: b != from ==> Held(gt, t, b) == Held(n.nodes[to], t, b)
    requires forall k, t :: k in gt.links ==> Told(n.nodes[to], gt, k, t)
    ensures Conserved(n.(nodes := n.nodes[from := gf][to := gt]))
  {
    var nodes := n.nodes[from := gf][to := gt];
    forall a, b, t | a in n.nodes && b in n.nodes && a != b ensures Balanced(nodes[b], nodes[a], b, a, t) {
      assert Balanced(n.nodes[b], n.nodes[a], b, a, t);
      assert a in gf.links.Keys <==> a in n.nodes[from].links.Keys;
      assert a in gt.links.Keys <==> a in n.nodes[to].links.Keys;
      if b == to {
        TellerKeepsBalance(n.nodes[to], gt, n.nodes[a], b, a, t);
      }
    }
  }

  lemma DataKeepsConserved(n: Net, from: GatewayId, to: GatewayId, i: nat)
    requires Good(n) && Enabled(n, DeliverData(from, to, i))
    ensures Conserved(Apply(n, DeliverData(from, to, i)))
  {
    var gf, gt := n.nodes[from], n.nodes[to];
    TakeDataKeepsControl(gf, to, i);
    ReceiveDataKeepsControl(gt, from, gf.links[to].data[i]);
    ReplaceData(n, from, TakeData(gf, to, i));
    ReplaceData(n.(nodes := n.nodes[from := TakeData(gf, to, i)]), to, ReceiveData(gt, from, gf.links[to].data[i]));
  }

  lemma TakeDataKeepsControl(g: Gateway, to: GatewayId, i: nat)
    requires to in g.links && i < |g.links[to].data|
    ensures SameControl(g, TakeData(g, to, i))
  {
  }

  lemma ReceiveDataKeepsControl(g: Gateway, from: GatewayId, d: Data)
    ensures SameControl(g, ReceiveData(g, from, d))
  {
  }

  lemma ReplaceData(n: Net, x: GatewayId, g: Gateway)
    requires Conserved(n) && x in n.nodes && SameControl(n.nodes[x], g)
    ensures Conserved(n.(nodes := n.nodes[x := g]))
  {
    var nodes := n.nodes[x := g];
    forall a, b, t | a in n.nodes && b in n.nodes && a != b ensures Balanced(nodes[b], nodes[a], b, a, t) {
      assert Balanced(n.nodes[b], n.nodes[a], b, a, t);
      assert a in g.links.Keys <==> a in n.nodes[x].links.Keys;
    }
  }

  /** The two agree on subscriptions and on every queue of control messages. */
  ghost predicate SameControl(g: Gateway, g': Gateway)
  {
    && g'.push == g.push && g'.subs == g.subs && g'.links.Keys == g.links.Keys
    && forall k :: k in g.links ==> g'.links[k].control == g.links[k].control
  }

  lemma StepKeepsGood(n: Net, s: Step)
    requires Good(n) && Enabled(n, s)
    ensures Good(Apply(n, s))
  {
    StepKeepsWellFormed(n, s);
    match s
    case Perform(at, step) => LocalKeepsConserved(n, at, step);
    case Connect(a, b) =>
    case Associate(from, to) => AssociateKeepsConserved(n, from, to);
    case DeliverControl(from, to) => DeliverKeepsConserved(n, from, to);
    case DeliverData(from, to, i) => DataKeepsConserved(n, from, to, i);
  }

  lemma {:induction false} RunKeepsGood(n: Net, run: seq<Step>, n': Net)
    requires Good(n) && Runs(n, run, n')
    ensures Good(n')
    decreases run
  {
    if run != [] {
      StepKeepsGood(n, run[0]);
      RunKeepsGood(Apply(n, run[0]), run[1..], n');
    }
  }

  // ----- over every run -----

  /**
   In every reachable state of every network, tree or not: on each registered link the
   count at the far end plus the net subscribes under way is the demand behind it.
   */
  lemma SubscriptionsConserved(n0: Net, run: seq<Step>, n: Net, b: GatewayId, a: GatewayId, t: string)
    requires Initial(n0) && Runs(n0, run, n)
    requires a in n.nodes && b in n.nodes && a in n.nodes[b].links
    ensures Held(n.nodes[a], t, b) + Flow(n.nodes[b].links[a].control, t) == Demand(n.nodes[b], t, a)
    ensures forall i :: 0 <= i <= |n.nodes[b].links[a].control| ==>
      Held(n.nodes[a], t, b) + Flow(n.nodes[b].links[a].control[..i], t) >= 0
  {
    InitialGood(n0);
    RunKeepsGood(n0, run, n);
    assert UpToDate(n, b);
    assert Balanced(n.nodes[b], n.nodes[a], b, a, t);
    NeverNegativeOnPrefixes(Held(n.nodes[a], t, b), n.nodes[b].links[a].control, t);
  }

  /** Every arriving unsubscribe finds the reference it withdraws. */
  lemma UnsubscribeFindsEntry(n0: Net, run: seq<Step>, n: Net, from: GatewayId, to: GatewayId)
    requires Initial(n0) && Runs(n0, run, n)
    requires Enabled(n, DeliverControl(from, to)) && n.nodes[from].links[to].control[0].Unsubscribe?
    ensures NeighbourSub(n.nodes[from].links[to].control[0].topic, from) in n.nodes[to].subs
  {
    InitialGood(n0);
    RunKeepsGood(n0, run, n);
    var c := n.nodes[from].links[to].control[0];
    assert forall u :: Balanced(n.nodes[from], n.nodes[to], from, to, u);
    ArrivalKeepsBalance(n.nodes[from], n.nodes[to], from, to, c.topic);
    CountPositive(n.nodes[to].subs, IsFrom(c.topic, from));
  }

  /** Every neighbour that a forward is addressed to has a live connection. */
  lemma ForwardsFindConnections(n0: Net, run: seq<Step>, n: Net, x: GatewayId, topic: string)
    requires Initial(n0) && Runs(n0, run, n) && x in n.nodes
    ensures NeighboursFor(n.nodes[x].subs, topic) <= n.nodes[x].links.Keys
    ensures PullNeighbours(n.nodes[x].pulls, topic) <= n.nodes[x].links.Keys
    ensures forall k :: k in n.nodes[x].links ==> (x, k) in n.conns && k in n.nodes
  {
    InitialGood(n0);
    RunKeepsGood(n0, run, n);
    assert UpToDate(n, x);
  }
}
