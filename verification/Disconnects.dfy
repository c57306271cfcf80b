/**
 What connections leave behind when they close, and where the code falls short of
 conservation: a neighbour's destructor withdraws what was withdrawn before.
 */
module Disconnects {
  import opened Sums
  import opened Topology
  import opened Tables
  import opened Conservation
  import opened Handlers

  // ----- plugins -----

  /** In every run, once a plugin's connection is closed no table of the gateway mentions it. */
  lemma ClosedPluginLeavesNoTrace(run: seq<Event>, u: Hub, h: Handle)
    requires Happens(EmptyHub, run, u) && h in u.plugins
    ensures Forgotten(After(u, PluginCloses(h)).g, h)
  {
    EmptyTracked();
    HistoryTracked(EmptyHub, run, u);
    CloseForgets(u.g, u.plugins[h], h);
  }

  lemma {:induction false} PullDeliveriesToEntries(pull: seq<LocalSub>, topic: string, sender: set<Handle>, d: Data,
                                                   x: Delivery)
    requires x in PullDeliveries(pull, topic, sender, d)
    ensures exists s :: s in pull && s.handler == x.handler
  {
    if pull[0].handler == x.handler {
      assert pull[0] in pull;
    } else {
      PullDeliveriesToEntries(pull[1..], topic, sender, d, x);
      var s :| s in pull[1..] && s.handler == x.handler;
      assert s in pull;
    }
  }

  /** `x.handler` is named in one of the tables that deliveries go by. */
  ghost predicate Named(g: Gateway, x: Delivery)
  {
    || (exists s :: s in g.push && s.handler == x.handler)
    || (exists s :: s in g.pull && s.handler == x.handler)
    || (exists pid :: pid in g.plugins && g.plugins[pid] == x.handler)
  }

  lemma MessageDeliversToNamed(g: Gateway, h: Handle, m: PluginMessage, x: Delivery)
    requires CoreAfterPlugin(g, h, m).delivered[x] > g.delivered[x]
    ensures Named(g, x)
  {
    match m
    case PushMsg(topic, body, _, _, _) =>
      assert x in Deliveries(MatchingHandlers(g.push, topic) - {h}, Push(topic, body));
    case PullMsg(pid, topic, body, _) =>
      PullDeliveriesToEntries(g.pull, topic, {h}, PullRequest(pid, topic, body), x);
    case _ =>
  }

  lemma DataDeliversToNamed(g: Gateway, id: GatewayId, d: Data, x: Delivery)
    requires ReceiveData(g, id, d).delivered[x] > g.delivered[x]
    ensures Named(g, x)
  {
    match d
    case Push(topic, _) => assert x in Deliveries(GlobalHandlers(g.push, topic), d);
    case PullRequest(_, topic, _) => PullDeliveriesToEntries(g.pull, topic, {}, d, x);
    case PullResponse(_, _) =>
  }

  lemma {:induction false} WithdrawalsDeliverNothing(g: Gateway, topics: seq<string>, h: Handle, id: GatewayId)
    ensures WithdrawPush(g, topics, h).delivered == g.delivered
    ensures WithdrawPull(g, topics, h).delivered == g.delivered
    ensures WithdrawSubs(g, topics, id).delivered == g.delivered
    ensures WithdrawPulls(g, topics, id).delivered == g.delivered
    decreases topics
  {
    if topics != [] {
      WithdrawalsDeliverNothing(UnregisterData(g, topics[0], All, h), topics[1..], h, id);
      WithdrawalsDeliverNothing(UnregisterPullInterest(g, topics[0], h), topics[1..], h, id);
      WithdrawalsDeliverNothing(ReceiveControl(g, id, Unsubscribe(topics[0])), topics[1..], h, id);
      WithdrawalsDeliverNothing(ReceiveControl(g, id, UnregisterPull(topics[0])), topics[1..], h, id);
    }
  }

  lemma EventDeliversToNamed(u: Hub, e: Event, x: Delivery)
    requires Possible(u, e) && After(u, e).g.delivered[x] > u.g.delivered[x]
    ensures Named(u.g, x)
  {
    match e
    case PluginSays(h, m) => MessageDeliversToNamed(u.g, h, m, x);
    case NeighbourSends(id, d) => DataDeliversToNamed(u.g, id, d, x);
    case PluginCloses(h) =>
      var p := u.plugins[h];
      WithdrawalsDeliverNothing(u.g, p.pushTopics, h, GatewayId(""));
      WithdrawalsDeliverNothing(WithdrawPush(u.g, p.pushTopics, h), p.pullTopics, h, GatewayId(""));
    case NeighbourCloses(id) =>
      var n := u.neighbours[id];
      WithdrawalsDeliverNothing(u.g, n.topics, 0, id);
      WithdrawalsDeliverNothing(WithdrawSubs(u.g, n.topics, id), n.pullTopics, 0, id);
    case _ =>
  }

  /** In every run, whatever happens next, nothing is sent to a plugin whose connection is closed. */
  lemma OnlyLivingPluginsAddressed(run: seq<Event>, u: Hub, e: Event, x: Delivery)
    requires Happens(EmptyHub, run, u) && Possible(u, e)
    requires After(u, e).g.delivered[x] > u.g.delivered[x]
    ensures x.handler in u.plugins
  {
    EventDeliversToNamed(u, e, x);
    TablesNameTheLiving(run, u);
    if s :| s in u.g.push && s.handler == x.handler {
      assert s.handler in MatchingHandlers(u.g.push, s.topic);
    }
  }

  // ----- neighbours -----

  /** How many subscriptions to `t` the neighbour has withdrawn during the run. */
  ghost function Withdrawn(u: Hub, run: seq<Event>, u': Hub, id: GatewayId, t: string): nat
    requires Happens(u, run, u')
    decreases run
  {
    if run == [] then 0
    else
      (if run[0] == NeighbourTells(id, Unsubscribe(t)) && Held(u.g, t, id) > 0 then 1 else 0)
      + Withdrawn(After(u, run[0]), run[1..], u', id, t)
  }

  /** How far the neighbour's list exceeds its entries. */
  ghost function Surplus(u: Hub, id: GatewayId, t: string): int
    requires id in u.neighbours
  {
    Count(u.neighbours[id].topics, Is(t)) - Held(u.g, t, id)
  }

  lemma ToldSurplus(u: Hub, from: GatewayId, c: Control, id: GatewayId, t: string)
    requires Possible(u, NeighbourTells(from, c)) && id in u.neighbours
    ensures Surplus(After(u, NeighbourTells(from, c)), id, t) ==
            Surplus(u, id, t) + (if from == id && c == Unsubscribe(t) && Held(u.g, t, id) > 0 then 1 else 0)
  {
    match c
    case Subscribe(v) =>
      ReceiveCounts(u.g, from, c, id, t);
      CountConcat(u.neighbours[from].topics, [v], Is(t));
    case Unsubscribe(v) => UnsubscribeHeld(u.g, from, v, id, t);
    case _ =>
  }

  lemma EventKeepsHeld(u: Hub, e: Event, id: GatewayId, t: string)
    requires Possible(u, e) && !e.NeighbourTells? && e != NeighbourCloses(id)
    requires e.NeighbourCloses? ==> TracksNeighbour(u.g, u.neighbours[e.id], e.id)
    ensures Held(After(u, e).g, t, id) == Held(u.g, t, id)
  {
    match e
    case PluginSays(h, m) => MessageElsewhere(u.g, h, m);
    case PluginCloses(h) => CloseElsewhere(u.g, u.plugins[h], h);
    case NeighbourCloses(k) => WithdrawClears(u.g, u.neighbours[k], k);
    case _ =>
  }

  lemma EventKeepsList(u: Hub, e: Event, id: GatewayId)
    requires Possible(u, e) && id in u.neighbours && !e.NeighbourTells? && e != NeighbourCloses(id)
    ensures id in After(u, e).neighbours && After(u, e).neighbours[id].topics == u.neighbours[id].topics
  {
  }

  lemma EventSurplus(u: Hub, e: Event, id: GatewayId, t: string)
    requires Possible(u, e) && id in u.neighbours && e != NeighbourCloses(id)
    requires e.NeighbourCloses? ==> TracksNeighbour(u.g, u.neighbours[e.id], e.id)
    ensures id in After(u, e).neighbours
    ensures Surplus(After(u, e), id, t) ==
            Surplus(u, id, t) + (if e == NeighbourTells(id, Unsubscribe(t)) && Held(u.g, t, id) > 0 then 1 else 0)
  {
    if e.NeighbourTells? {
      ToldSurplus(u, e.id, e.c, id, t);
    } else {
      EventKeepsHeld(u, e, id, t);
      EventKeepsList(u, e, id);
    }
  }

  ghost predicate Tracked(u: Hub)
  {
    PluginsTracked(u) && NeighboursTracked(u)
  }

  lemma EventKeepsTracked(u: Hub, e: Event)
    requires Tracked(u) && Possible(u, e)
    ensures Tracked(After(u, e))
    ensures e.NeighbourCloses? ==> TracksNeighbour(u.g, u.neighbours[e.id], e.id)
  {
    EventKeepsPlugins(u, e);
    EventKeepsNeighbours(u, e);
  }

  lemma {:induction false} HistorySurplus(u: Hub, run: seq<Event>, u': Hub, id: GatewayId, t: string)
    requires Tracked(u) && Happens(u, run, u') && id in u.neighbours && NeighbourCloses(id) !in run
    ensures Tracked(u') && id in u'.neighbours
    ensures Surplus(u', id, t) == Surplus(u, id, t) + Withdrawn(u, run, u', id, t)
    decreases run
  {
    if run != [] {
      assert run[0] in run && NeighbourCloses(id) !in run[1..];
      EventKeepsTracked(u, run[0]);
      EventSurplus(u, run[0], id, t);
      HistorySurplus(After(u, run[0]), run[1..], u', id, t);
    }
  }

  /** The destructor unsubscribes once for each topic on the list, found or not. */
  lemma {:induction false} WithdrawSubsTells(g: Gateway, topics: seq<string>, id: GatewayId, k: GatewayId, t: string)
    requires k in g.links && k != id
    ensures var g' := WithdrawSubs(g, topics, id);
      && k in g'.links
      && Flow(g'.links[k].control, t) == Flow(g.links[k].control, t) - Count(topics, Is(t))
      && Demand(g', t, k) - Demand(g, t, k) == Held(g', t, id) - Held(g, t, id)
    decreases topics
  {
    if topics != [] {
      var c := Unsubscribe(topics[0]);
      var g1 := ReceiveControl(g, id, c);
      ToldBroadcast(g, {id}, c, k, t);
      if Held(g, topics[0], id) > 0 {
        ReceiveCounts(g, id, c, k, t);
        ReceiveCounts(g, id, c, id, t);
      } else {
        HeldBySome(g, NeighbourSub(topics[0], id));
        assert g1.subs == g.subs;
      }
      WithdrawSubsTells(g1, topics[1..], id, k, t);
    }
  }

  lemma {:induction false} WithdrawPullsTellsNothing(g: Gateway, topics: seq<string>, id: GatewayId, k: GatewayId,
                                                     t: string)
    requires k in g.links
    ensures var g' := WithdrawPulls(g, topics, id);
      && k in g'.links && Flow(g'.links[k].control, t) == Flow(g.links[k].control, t)
      && g'.subs == g.subs && g'.push == g.push
    decreases topics
  {
    if topics != [] {
      var c := UnregisterPull(topics[0]);
      if k != id { ToldBroadcast(g, {id}, c, k, t); }
      WithdrawPullsTellsNothing(ReceiveControl(g, id, c), topics[1..], id, k, t);
    }
  }

  /** What the closing of `id` tells another neighbour, against how it changes the demand. */
  lemma CloseTells(g: Gateway, n: Neighbour, id: GatewayId, k: GatewayId, t: string)
    requires TracksNeighbour(g, n, id) && k in g.links && k != id
    ensures var g' := CloseNeighbour(g, n, id);
      && k in g'.links
      && Flow(g'.links[k].control, t) - Flow(g.links[k].control, t) == 0 - Count(n.topics, Is(t))
      && Demand(g', t, k) - Demand(g, t, k) == 0 - Held(g, t, id)
  {
    var g1 := WithdrawSubs(g, n.topics, id);
    WithdrawSubsTells(g, n.topics, id, k, t);
    WithdrawSubsClears(g, n.topics, id);
    WithdrawPullsTellsNothing(g1, n.pullTopics, id, k, t);
    assert CloseNeighbour(g, n, id).push == g1.push && CloseNeighbour(g, n, id).subs == g1.subs;
  }

  /** Closing tells neighbour `k` exactly how the demand has changed, for every type. */
  ghost predicate CloseConserves(g: Gateway, g': Gateway, k: GatewayId)
    requires k in g.links && k in g'.links
  {
    forall t :: ToldChange(g, g', k, t)
  }

  ghost predicate ToldChange(g: Gateway, g': Gateway, k: GatewayId, t: string)
    requires k in g.links && k in g'.links
  {
    Flow(g'.links[k].control, t) - Flow(g.links[k].control, t) == Demand(g', t, k) - Demand(g, t, k)
  }

  /**
   The links to the remaining neighbours stay balanced when a neighbour disconnects if and
   only if it has withdrawn no subscription while it was connected: the handler never
   takes a withdrawn topic off its list, so the destructor withdraws it again.
   */
  lemma DisconnectConservesIffNothingWithdrawn(before: seq<Event>, u0: Hub, id: GatewayId, u1: Hub, run: seq<Event>,
                                               u: Hub, k: GatewayId)
    requires Happens(EmptyHub, before, u0)
    requires Possible(u0, NeighbourAssociates(id)) && u1 == After(u0, NeighbourAssociates(id))
    requires Happens(u1, run, u) && NeighbourCloses(id) !in run
    requires k in u.neighbours && k != id
    ensures id in u.neighbours && k in u.g.links && k in CloseNeighbour(u.g, u.neighbours[id], id).links
    ensures CloseConserves(u.g, CloseNeighbour(u.g, u.neighbours[id], id), k) <==> NothingWithdrawn(u1, run, u, id)
  {
    FreshlyTracked(before, u0, id);
    ConservesIffNothingWithdrawn(u1, id, run, u, k);
  }

  ghost predicate NothingWithdrawn(u: Hub, run: seq<Event>, u': Hub, id: GatewayId)
    requires Happens(u, run, u')
  {
    forall t :: Withdrawn(u, run, u', id, t) == 0
  }

  lemma ConservesIffNothingWithdrawn(u1: Hub, id: GatewayId, run: seq<Event>, u: Hub, k: GatewayId)
    requires Tracked(u1) && id in u1.neighbours && forall t :: Surplus(u1, id, t) == 0
    requires Happens(u1, run, u) && NeighbourCloses(id) !in run
    requires k in u.neighbours && k != id
    ensures id in u.neighbours && k in u.g.links && k in CloseNeighbour(u.g, u.neighbours[id], id).links
    ensures CloseConserves(u.g, CloseNeighbour(u.g, u.neighbours[id], id), k) <==> NothingWithdrawn(u1, run, u, id)
  {
    ToldIffNothingWithdrawn(u1, id, run, u, k, "");
    var g, g' := u.g, CloseNeighbour(u.g, u.neighbours[id], id);
    if CloseConserves(g, g', k) {
      forall t ensures Withdrawn(u1, run, u, id, t) == 0 {
        assert ToldChange(g, g', k, t);
        ToldIffNothingWithdrawn(u1, id, run, u, k, t);
      }
    }
    if NothingWithdrawn(u1, run, u, id) {
      forall t ensures ToldChange(g, g', k, t) {
        assert Withdrawn(u1, run, u, id, t) == 0;
        ToldIffNothingWithdrawn(u1, id, run, u, k, t);
      }
    }
  }

  lemma ToldIffNothingWithdrawn(u1: Hub, id: GatewayId, run: seq<Event>, u: Hub, k: GatewayId, t: string)
    requires Tracked(u1) && id in u1.neighbours && Surplus(u1, id, t) == 0
    requires Happens(u1, run, u) && NeighbourCloses(id) !in run
    requires k in u.neighbours && k != id
    ensures id in u.neighbours && k in u.g.links && k in CloseNeighbour(u.g, u.neighbours[id], id).links
    ensures ToldChange(u.g, CloseNeighbour(u.g, u.neighbours[id], id), k, t) <==> Withdrawn(u1, run, u, id, t) == 0
  {
    HistorySurplus(u1, run, u, id, t);
    assert Surplus(u, id, t) == Withdrawn(u1, run, u, id, t);
    LinkKept(u, id, k);
    ToldIffNoSurplus(u, id, k, t);
  }

  lemma FreshlyTracked(before: seq<Event>, u0: Hub, id: GatewayId)
    requires Happens(EmptyHub, before, u0) && Possible(u0, NeighbourAssociates(id))
    ensures Tracked(After(u0, NeighbourAssociates(id)))
    ensures forall t :: Surplus(After(u0, NeighbourAssociates(id)), id, t) == 0
  {
    EmptyTracked();
    HistoryTracked(EmptyHub, before, u0);
    EventKeepsTracked(u0, NeighbourAssociates(id));
    assert Gone(u0.g, id);
    NoNeighbourKnown(u0.g, id);
  }

  lemma LinkKept(u: Hub, id: GatewayId, k: GatewayId)
    requires Tracked(u) && id in u.neighbours && k in u.neighbours && k != id
    ensures k in u.g.links && k in CloseNeighbour(u.g, u.neighbours[id], id).links
  {
    assert TracksNeighbour(u.g, u.neighbours[id], id) && k in u.g.links.Keys;
    CloseTells(u.g, u.neighbours[id], id, k, "");
  }

  lemma ToldIffNoSurplus(u: Hub, id: GatewayId, k: GatewayId, t: string)
    requires Tracked(u) && id in u.neighbours && k in u.neighbours && k != id
    requires k in u.g.links && k in CloseNeighbour(u.g, u.neighbours[id], id).links
    ensures ToldChange(u.g, CloseNeighbour(u.g, u.neighbours[id], id), k, t) <==> Surplus(u, id, t) == 0
  {
    assert TracksNeighbour(u.g, u.neighbours[id], id);
    CloseTells(u.g, u.neighbours[id], id, k, t);
  }

  lemma StepFirst(u: Hub, e: Event, run: seq<Event>, v: Hub)
    requires Possible(u, e) && Happens(After(u, e), run, v)
    ensures Happens(u, [e] + run, v)
  {
    assert ([e] + run)[1..] == run;
  }

  ghost function BothAssociated(a: GatewayId, b: GatewayId): Hub
    requires a != b
  {
    After(After(EmptyHub, NeighbourAssociates(a)), NeighbourAssociates(b))
  }

  ghost function BothTold(a: GatewayId, b: GatewayId): Hub
    requires a != b
  {
    After(After(BothAssociated(a, b), NeighbourTells(a, Subscribe("t"))), NeighbourTells(a, Unsubscribe("t")))
  }

  lemma AssociatedState(a: GatewayId, b: GatewayId)
    requires a != b
    ensures var u := BothAssociated(a, b);
      && Possible(EmptyHub, NeighbourAssociates(a))
      && Possible(After(EmptyHub, NeighbourAssociates(a)), NeighbourAssociates(b))
      && a in u.neighbours && b in u.neighbours && u.neighbours[a] == Neighbour([], [], {})
      && u.g.subs == [] && u.g.push == [] && b in u.g.links && u.g.links[b].control == []
  {}

  lemma ToldState(a: GatewayId, b: GatewayId)
    requires a != b
    ensures var u := BothTold(a, b);
      && a in u.neighbours && b in u.g.links && u.g.links[b].control == [Subscribe("t"), Unsubscribe("t")]
      && u.g.subs == [] && u.g.push == [] && u.neighbours[a].topics == ["t"] && u.neighbours[a].pullTopics == []
  {
    AssociatedState(a, b);
  }

  /** One subscribe and one unsubscribe are enough: neighbour `b` is told to drop one too many. */
  lemma WithdrawnTwice(a: GatewayId, b: GatewayId)
    requires a != b
    ensures exists run, u ::
      && Happens(EmptyHub, run, u) && b in u.g.links && u.g.subs == [] && u.g.push == []
      && Flow(u.g.links[b].control, "t") == -1
  {
    ToldState(a, b);
    ShortRun(a, b);
    LastClose(BothTold(a, b).g, BothTold(a, b).neighbours[a], a, b);
    var u := After(BothTold(a, b), NeighbourCloses(a));
    assert u.g == CloseNeighbour(BothTold(a, b).g, BothTold(a, b).neighbours[a], a);
    var run :| Happens(EmptyHub, run, u);
  }

  lemma RunToAssociated(a: GatewayId, b: GatewayId, run: seq<Event>, u: Hub)
    requires a != b && Happens(BothAssociated(a, b), run, u)
    ensures exists whole :: Happens(EmptyHub, whole, u)
  {
    AssociatedState(a, b);
    StepFirst(After(EmptyHub, NeighbourAssociates(a)), NeighbourAssociates(b), run, u);
    StepFirst(EmptyHub, NeighbourAssociates(a), [NeighbourAssociates(b)] + run, u);
  }

  lemma ShortRun(a: GatewayId, b: GatewayId)
    requires a != b
    ensures a in BothTold(a, b).neighbours
    ensures exists run :: Happens(EmptyHub, run, After(BothTold(a, b), NeighbourCloses(a)))
  {
    AssociatedState(a, b);
    ToldState(a, b);
    var u2, u4 := BothAssociated(a, b), BothTold(a, b);
    var u5 := After(u4, NeighbourCloses(a));
    var run4 := [NeighbourCloses(a)];
    var run3 := [NeighbourTells(a, Unsubscribe("t"))] + run4;
    assert Happens(u5, [], u5);
    StepFirst(u4, NeighbourCloses(a), [], u5);
    assert [NeighbourCloses(a)] + [] == run4;
    StepFirst(After(u2, NeighbourTells(a, Subscribe("t"))), NeighbourTells(a, Unsubscribe("t")), run4, u5);
    StepFirst(u2, NeighbourTells(a, Subscribe("t")), run3, u5);
    RunToAssociated(a, b, [NeighbourTells(a, Subscribe("t"))] + run3, u5);
  }

  lemma LastClose(g: Gateway, n: Neighbour, a: GatewayId, b: GatewayId)
    requires a != b && b in g.links && g.links[b].control == [Subscribe("t"), Unsubscribe("t")]
    requires g.subs == [] && g.push == [] && n.topics == ["t"] && n.pullTopics == []
    ensures var g' := CloseNeighbour(g, n, a);
      b in g'.links && g'.subs == [] && g'.push == [] && Flow(g'.links[b].control, "t") == -1
  {
    var g1 := ReceiveControl(g, a, Unsubscribe("t"));
    assert n.topics[1..] == [];
    assert WithdrawSubs(g, n.topics, a) == g1;
    ToldBroadcast(g, {a}, Unsubscribe("t"), b, "t");
    assert Flow([Unsubscribe("t")], "t") == -1;
    assert Flow([Subscribe("t"), Unsubscribe("t")], "t") == 0 by {
      assert [Subscribe("t"), Unsubscribe("t")][1..] == [Unsubscribe("t")];
    }
  }
}
