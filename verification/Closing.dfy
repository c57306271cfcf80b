/** What closing a connection takes out of the tables, queues and tells, entry by entry. */
module Closing {
  import opened Sums
  import opened Topology
  import opened Tables
  import opened Conservation
  import opened Handlers
  import opened Registrations

  /** The two differ only in entries for pushes and in what neighbours are told. */
  ghost predicate SameButPush(g: Gateway, g': Gateway)
  {
    g'.(push := g.push, links := g.links) == g && g'.links.Keys == g.links.Keys
  }

  /** The neighbour has been told of the change in demand, and its data queue has stayed. */
  ghost predicate ToldDemand(g: Gateway, g': Gateway, k: GatewayId, t: string)
  {
    && k in g.links && k in g'.links && g'.links[k].data == g.links[k].data
    && Flow(g'.links[k].control, t) - Flow(g.links[k].control, t) == Demand(g', t, k) - Demand(g, t, k)
  }

  lemma {:induction false} WithdrawPushTells(g: Gateway, topics: seq<string>, h: Handle, k: GatewayId, t: string)
    requires k in g.links
    ensures ToldDemand(g, WithdrawPush(g, topics, h), k, t) && SameButPush(g, WithdrawPush(g, topics, h))
    decreases topics
  {
    if topics != [] {
      var g1 := UnregisterData(g, topics[0], All, h);
      UnregisterTells(g, topics[0], All, h, k, t);
      WithdrawPushTells(g1, topics[1..], h, k, t);
    }
  }

  lemma {:induction false} WithdrawPushKeeps(g: Gateway, topics: seq<string>, h: Handle, t: string, k: Handle,
                                             own: OwnScope)
    requires k != h
    ensures Entries(WithdrawPush(g, topics, h).push, t, k, own) == Entries(g.push, t, k, own)
    ensures SameButPush(g, WithdrawPush(g, topics, h))
    decreases topics
  {
    if topics != [] {
      OneLessEntry(g.push, topics[0], h, All, t, k, own);
      WithdrawPushKeeps(UnregisterData(g, topics[0], All, h), topics[1..], h, t, k, own);
    }
  }

  lemma {:induction false} WithdrawPullKeeps(g: Gateway, topics: seq<string>, h: Handle, t: string, k: Handle,
                                             own: OwnScope)
    requires k != h
    ensures Entries(WithdrawPull(g, topics, h).pull, t, k, own) == Entries(g.pull, t, k, own)
    ensures WithdrawPull(g, topics, h).(pull := g.pull) == g
    decreases topics
  {
    if topics != [] {
      OneLessEntry(g.pull, topics[0], h, All, t, k, own);
      WithdrawPullKeeps(UnregisterPullInterest(g, topics[0], h), topics[1..], h, t, k, own);
    }
  }

  lemma NoneLeft(subs: seq<LocalSub>, t: string, h: Handle, own: OwnScope)
    requires forall s :: s in subs ==> s.handler != h
    ensures Entries(subs, t, h, own) == 0
  {
    CountPositive(subs, IsEntry(t, h, own));
  }

  /** A closing plugin takes all its entries and ids with it, and nobody else's. */
  lemma PluginTakesItsOwn(g: Gateway, p: Plugin, h: Handle, t: string, k: Handle, own: OwnScope, pid: string)
    requires TracksPlugin(g, p, h)
    ensures var g' := ClosePlugin(g, p, h);
      && Entries(g'.push, t, k, own) == (if k == h then 0 else Entries(g.push, t, k, own))
      && Entries(g'.pull, t, k, own) == (if k == h then 0 else Entries(g.pull, t, k, own))
      && (pid in g'.plugins <==> pid in g.plugins && g.plugins[pid] != h)
      && (pid in g'.plugins ==> g'.plugins[pid] == g.plugins[pid])
  {
    var g1 := WithdrawPush(g, p.pushTopics, h);
    WithdrawPushClears(g, p.pushTopics, h);
    WithdrawPullClears(g1, p.pullTopics, h);
    if k == h {
      NoneLeft(ClosePlugin(g, p, h).push, t, h, own);
      NoneLeft(ClosePlugin(g, p, h).pull, t, h, own);
    } else {
      WithdrawPushKeeps(g, p.pushTopics, h, t, k, own);
      WithdrawPullKeeps(g1, p.pullTopics, h, t, k, own);
    }
  }

  /** Neighbours are told exactly what the closing changes in the demand for pushes; nothing else is touched. */
  lemma ClosingPluginTells(g: Gateway, p: Plugin, h: Handle, k: GatewayId, t: string)
    requires k in g.links
    ensures var g' := ClosePlugin(g, p, h);
      && ToldDemand(g, g', k, t)
      && g'.subs == g.subs && g'.pulls == g.pulls && g'.routes == g.routes && g'.delivered == g.delivered
  {
    var g1 := WithdrawPush(g, p.pushTopics, h);
    WithdrawPushTells(g, p.pushTopics, h, k, t);
    WithdrawPullKeeps(g1, p.pullTopics, h, t, h + 1, Global);
  }

  lemma {:induction false} WithdrawSubsKeeps(g: Gateway, topics: seq<string>, id: GatewayId, k: GatewayId)
    requires k in g.links
    ensures var g' := WithdrawSubs(g, topics, id);
      k in g'.links && g'.links[k].data == g.links[k].data && g'.delivered == g.delivered && g'.routes == g.routes
    decreases topics
  {
    if topics != [] { WithdrawSubsKeeps(ReceiveControl(g, id, Unsubscribe(topics[0])), topics[1..], id, k); }
  }

  lemma {:induction false} WithdrawPullsKeeps(g: Gateway, topics: seq<string>, id: GatewayId, k: GatewayId)
    requires k in g.links
    ensures var g' := WithdrawPulls(g, topics, id);
      k in g'.links && g'.links[k].data == g.links[k].data && g'.delivered == g.delivered && g'.routes == g.routes
    decreases topics
  {
    if topics != [] { WithdrawPullsKeeps(ReceiveControl(g, id, UnregisterPull(topics[0])), topics[1..], id, k); }
  }

  /** A closing neighbour takes its references, registrations and ways back with it, and nobody else's. */
  lemma NeighbourTakesItsOwn(g: Gateway, n: Neighbour, id: GatewayId, t: string, k: GatewayId, pid: string)
    requires TracksNeighbour(g, n, id) && k in g.links && k != id
    ensures var g' := CloseNeighbour(g, n, id);
      && Held(g', t, k) == Held(g, t, k) && g'.pulls[(t, k)] == g.pulls[(t, k)]
      && Held(g', t, id) == 0 && g'.pulls[(t, id)] == 0
      && (pid in g'.routes <==> pid in g.routes && g.routes[pid] != id)
      && (pid in g'.routes ==> g'.routes[pid] == g.routes[pid])
      && g'.links.Keys == g.links.Keys - {id} && g'.links[k].data == g.links[k].data
      && g'.delivered == g.delivered
  {
    WithdrawSubsClears(g, n.topics, id);
    var g1 := WithdrawSubs(g, n.topics, id);
    WithdrawPullsClears(g1, n.pullTopics, id);
    WithdrawSubsKeeps(g, n.topics, id, k);
    WithdrawPullsKeeps(g1, n.pullTopics, id, k);
    var g2 := WithdrawPulls(g1, n.pullTopics, id);
    assert CloseNeighbour(g, n, id).subs == g2.subs;
    assert Held(g2, t, k) == Held(g1, t, k) && Held(g2, t, id) == Held(g1, t, id);
  }
}
