/**
 The connections of one gateway.  Each keeps private lists of what it has entered in
 the shared tables, and withdraws what is on its lists when it is destroyed.
 */
module Handlers {
  import opened Sums
  import opened Topology
  import opened Tables
  import opened Conservation

  /** The private lists of a plugin connection. */
  datatype Plugin = Plugin(pushTopics: seq<string>, pullTopics: seq<string>, ids: set<string>)

  /** The private lists of a neighbour connection. */
  datatype Neighbour = Neighbour(topics: seq<string>, pullTopics: seq<string>, ids: set<string>)

  datatype PluginMessage =
    | RegisterDataMsg(topic: string, scope: OwnScope)
    | UnregisterDataMsg(topic: string, scope: OwnScope)
    | RegisterPullMsg(topic: string, scope: OwnScope)
    | UnregisterPullMsg(topic: string)
    | PushMsg(topic: string, body: string, device: string, scope: OwnScope, ack: bool)
    | PullMsg(pid: string, topic: string, body: string, scope: OwnScope)
    | AnswerMsg(pid: string, body: string)

  function Drop(topics: seq<string>, t: string): seq<string>
  {
    Without(topics, IndexOf(topics, t))
  }

  // ----- plugin connections -----

  function CoreAfterPlugin(g: Gateway, h: Handle, m: PluginMessage): Gateway
  {
    match m
    case RegisterDataMsg(t, scope) => RegisterData(g, t, scope, h)
    case UnregisterDataMsg(t, scope) => UnregisterData(g, t, scope, h)
    case RegisterPullMsg(t, scope) => RegisterPullInterest(g, t, scope, h)
    case UnregisterPullMsg(t) => UnregisterPullInterest(g, t, h)
    case PushMsg(t, body, device, scope, ack) => PushLocal(g, h, t, body, device, scope, ack)
    case PullMsg(pid, t, body, scope) => PullLocal(g, h, pid, t, body, scope)
    case AnswerMsg(pid, body) => Answer(g, pid, body, {})
  }

  function PluginAfter(g: Gateway, p: Plugin, h: Handle, m: PluginMessage): Plugin
  {
    match m
    case RegisterDataMsg(t, _) => p.(pushTopics := p.pushTopics + [t])
    case UnregisterDataMsg(t, scope) =>
      if FirstMatch(g.push, t, scope, h) < |g.push| then p.(pushTopics := Drop(p.pushTopics, t)) else p
    case RegisterPullMsg(t, _) => p.(pullTopics := p.pullTopics + [t])
    case UnregisterPullMsg(t) =>
      if FirstMatch(g.pull, t, All, h) < |g.pull| then p.(pullTopics := Drop(p.pullTopics, t)) else p
    case PushMsg(_, _, device, _, ack) => if ack then p.(ids := p.ids + {device}) else p
    case PullMsg(pid, _, _, _) => p.(ids := p.ids + {pid})
    case AnswerMsg(_, _) => p
  }

  function WithdrawPush(g: Gateway, topics: seq<string>, h: Handle): Gateway
    decreases topics
  {
    if topics == [] then g else WithdrawPush(UnregisterData(g, topics[0], All, h), topics[1..], h)
  }

  function WithdrawPull(g: Gateway, topics: seq<string>, h: Handle): Gateway
    decreases topics
  {
    if topics == [] then g else WithdrawPull(UnregisterPullInterest(g, topics[0], h), topics[1..], h)
  }

  function WithdrawIds(g: Gateway, ids: set<string>, h: Handle): Gateway
  {
    g.(plugins := map k | k in g.plugins && (k in ids ==> g.plugins[k] != h) :: g.plugins[k])
  }

  function ClosePlugin(g: Gateway, p: Plugin, h: Handle): Gateway
  {
    WithdrawIds(WithdrawPull(WithdrawPush(g, p.pushTopics, h), p.pullTopics, h), p.ids, h)
  }

  ghost function IsOf(h: Handle, t: string): LocalSub -> bool
  {
    (s: LocalSub) => s.handler == h && s.topic == t
  }

  ghost function Is(t: string): string -> bool
  {
    (u: string) => u == t
  }

  /** The list names each topic as often as the plugin has an entry for it. */
  ghost predicate Lists(topics: seq<string>, subs: seq<LocalSub>, h: Handle)
  {
    forall t :: Count(topics, Is(t)) == Count(subs, IsOf(h, t))
  }

  /** The plugin's lists match its entries, and cover the ids that answers come back to. */
  ghost predicate TracksPlugin(g: Gateway, p: Plugin, h: Handle)
  {
    && Lists(p.pushTopics, g.push, h)
    && Lists(p.pullTopics, g.pull, h)
    && forall pid :: pid in g.plugins && g.plugins[pid] == h ==> pid in p.ids
  }

  /** No table mentions the plugin. */
  ghost predicate Forgotten(g: Gateway, h: Handle)
  {
    && (forall s :: s in g.push ==> s.handler != h)
    && (forall s :: s in g.pull ==> s.handler != h)
    && (forall pid :: pid in g.plugins ==> g.plugins[pid] != h)
  }

  lemma ListGrows(topics: seq<string>, subs: seq<LocalSub>, t: string, s: LocalSub, h: Handle)
    requires Lists(topics, subs, h) && s.topic == t
    ensures s.handler == h ==> Lists(topics + [t], subs + [s], h)
    ensures s.handler != h ==> Lists(topics, subs + [s], h)
  {
    forall u
      ensures Count(topics + [t], Is(u)) == Count(topics, Is(u)) + (if t == u then 1 else 0)
      ensures Count(subs + [s], IsOf(h, u)) == Count(subs, IsOf(h, u)) + (if s.handler == h && t == u then 1 else 0)
    {
      CountConcat(topics, [t], Is(u));
      CountConcat(subs, [s], IsOf(h, u));
    }
  }

  lemma ListShrinks(topics: seq<string>, subs: seq<LocalSub>, i: nat, h: Handle)
    requires Lists(topics, subs, h) && i < |subs|
    ensures subs[i].handler == h ==> Lists(Drop(topics, subs[i].topic), Without(subs, i), h)
    ensures subs[i].handler != h ==> Lists(topics, Without(subs, i), h)
  {
    var t := subs[i].topic;
    var j := IndexOf(topics, t);
    forall u ensures Count(subs, IsOf(h, u)) ==
                     Count(Without(subs, i), IsOf(h, u)) + (if subs[i].handler == h && t == u then 1 else 0)
    {
      CountRemove(subs, i, IsOf(h, u));
    }
    if subs[i].handler == h {
      CountPositive(subs, IsOf(h, t));
      CountPositive(topics, Is(t));
      assert subs[i] in subs && t in topics;
      forall u ensures Count(topics, Is(u)) == Count(Drop(topics, t), Is(u)) + (if t == u then 1 else 0) {
        CountRemove(topics, j, Is(u));
      }
    }
  }

  /** A message of plugin `k` keeps the lists of every plugin in step. */
  lemma MessageKeepsTracking(g: Gateway, p: Plugin, h: Handle, k: Handle, m: PluginMessage)
    requires TracksPlugin(g, p, h)
    ensures TracksPlugin(CoreAfterPlugin(g, k, m), if k == h then PluginAfter(g, p, h, m) else p, h)
  {
    match m
    case RegisterDataMsg(t, scope) => ListGrows(p.pushTopics, g.push, t, LocalSub(t, k, scope), h);
    case UnregisterDataMsg(t, scope) =>
      var i := FirstMatch(g.push, t, scope, k);
      if i < |g.push| { ListShrinks(p.pushTopics, g.push, i, h); }
    case RegisterPullMsg(t, scope) => ListGrows(p.pullTopics, g.pull, t, LocalSub(t, k, scope), h);
    case UnregisterPullMsg(t) =>
      var i := FirstMatch(g.pull, t, All, k);
      if i < |g.pull| { ListShrinks(p.pullTopics, g.pull, i, h); }
    case _ =>
  }

  lemma ListedIsFound(topics: seq<string>, subs: seq<LocalSub>, h: Handle)
    requires Lists(topics, subs, h) && topics != []
    ensures FirstMatch(subs, topics[0], All, h) < |subs|
    ensures Drop(topics, topics[0]) == topics[1..]
  {
    CountPositive(topics, Is(topics[0]));
    CountPositive(subs, IsOf(h, topics[0]));
    assert topics[0] in topics;
    var s :| s in subs && s.handler == h && s.topic == topics[0];
    assert Matches(s, topics[0], All, h);
  }

  lemma {:induction false} NothingListed(subs: seq<LocalSub>, h: Handle)
    requires Lists([], subs, h)
    ensures forall s :: s in subs ==> s.handler != h
  {
    forall s | s in subs ensures s.handler != h {
      CountPositive(subs, IsOf(h, s.topic));
      assert Count([], Is(s.topic)) == 0;
    }
  }

  /** Withdrawing everything on the list leaves no entry; other plugins keep theirs. */
  lemma {:induction false} WithdrawPushClears(g: Gateway, topics: seq<string>, h: Handle)
    requires Lists(topics, g.push, h)
    ensures var g' := WithdrawPush(g, topics, h);
      && (forall s :: s in g'.push ==> s.handler != h)
      && g'.pull == g.pull && g'.plugins == g.plugins
      && (forall s :: s in g'.push ==> s in g.push)
      && forall k, p :: k != h && Lists(p, g.push, k) ==> Lists(p, g'.push, k)
    decreases topics
  {
    if topics == [] {
      NothingListed(g.push, h);
    } else {
      var i := FirstMatch(g.push, topics[0], All, h);
      ListedIsFound(topics, g.push, h);
      ListShrinks(topics, g.push, i, h);
      var g1 := UnregisterData(g, topics[0], All, h);
      forall k, p | k != h && Lists(p, g.push, k) ensures Lists(p, g1.push, k) { ListShrinks(p, g.push, i, k); }
      WithdrawPushClears(g1, topics[1..], h);
    }
  }

  lemma {:induction false} WithdrawPullClears(g: Gateway, topics: seq<string>, h: Handle)
    requires Lists(topics, g.pull, h)
    ensures var g' := WithdrawPull(g, topics, h);
      && (forall s :: s in g'.pull ==> s.handler != h)
      && g'.push == g.push && g'.plugins == g.plugins
      && (forall s :: s in g'.pull ==> s in g.pull)
      && forall k, p :: k != h && Lists(p, g.pull, k) ==> Lists(p, g'.pull, k)
    decreases topics
  {
    if topics == [] {
      NothingListed(g.pull, h);
    } else {
      var i := FirstMatch(g.pull, topics[0], All, h);
      ListedIsFound(topics, g.pull, h);
      ListShrinks(topics, g.pull, i, h);
      var g1 := UnregisterPullInterest(g, topics[0], h);
      forall k, p | k != h && Lists(p, g.pull, k) ensures Lists(p, g1.pull, k) { ListShrinks(p, g.pull, i, k); }
      WithdrawPullClears(g1, topics[1..], h);
    }
  }

  /** After a plugin's destructor no table mentions it, and the others are as they were. */
  lemma CloseForgets(g: Gateway, p: Plugin, h: Handle)
    requires TracksPlugin(g, p, h)
    ensures Forgotten(ClosePlugin(g, p, h), h)
    ensures forall k, q :: k != h && TracksPlugin(g, q, k) ==> TracksPlugin(ClosePlugin(g, p, h), q, k)
    ensures forall k :: Forgotten(g, k) ==> Forgotten(ClosePlugin(g, p, h), k)
  {
    var g1 := WithdrawPush(g, p.pushTopics, h);
    WithdrawPushClears(g, p.pushTopics, h);
    WithdrawPullClears(g1, p.pullTopics, h);
  }

  // ----- neighbour connections -----

  function NeighbourAfterControl(g: Gateway, n: Neighbour, id: GatewayId, c: Control): Neighbour
  {
    match c
    case Subscribe(t) => n.(topics := n.topics + [t])
    case Unsubscribe(_) => n  // the answer is always false, so the topic stays on the list
    case RegisterPull(t) => n.(pullTopics := n.pullTopics + [t])
    case UnregisterPull(t) => if (t, id) in g.pulls then n.(pullTopics := Drop(n.pullTopics, t)) else n
  }

  function NeighbourAfterData(n: Neighbour, d: Data): Neighbour
  {
    if d.PullRequest? then n.(ids := n.ids + {d.pluginId}) else n
  }

  function WithdrawSubs(g: Gateway, topics: seq<string>, id: GatewayId): Gateway
    decreases topics
  {
    if topics == [] then g else WithdrawSubs(ReceiveControl(g, id, Unsubscribe(topics[0])), topics[1..], id)
  }

  function WithdrawPulls(g: Gateway, topics: seq<string>, id: GatewayId): Gateway
    decreases topics
  {
    if topics == [] then g else WithdrawPulls(ReceiveControl(g, id, UnregisterPull(topics[0])), topics[1..], id)
  }

  function WithdrawRoutes(g: Gateway, ids: set<string>, id: GatewayId): Gateway
  {
    g.(routes := map k | k in g.routes && (k in ids ==> g.routes[k] != id) :: g.routes[k])
  }

  /** The destructor up to where the connection is taken out of the table of connections. */
  function WithdrawNeighbour(g: Gateway, n: Neighbour, id: GatewayId): Gateway
  {
    WithdrawRoutes(WithdrawPulls(WithdrawSubs(g, n.topics, id), n.pullTopics, id), n.ids, id)
  }

  function CloseNeighbour(g: Gateway, n: Neighbour, id: GatewayId): Gateway
  {
    UnregisterConnection(WithdrawNeighbour(g, n, id), id)
  }

  /** The lists cover the neighbour's entries; the list of pulls matches them. */
  ghost predicate TracksNeighbour(g: Gateway, n: Neighbour, id: GatewayId)
  {
    && (forall t :: Held(g, t, id) <= Count(n.topics, Is(t)))
    && (forall t :: g.pulls[(t, id)] == Count(n.pullTopics, Is(t)))
    && (forall pid :: pid in g.routes && g.routes[pid] == id ==> pid in n.ids)
  }

  /** No table mentions the neighbour. */
  ghost predicate Gone(g: Gateway, id: GatewayId)
  {
    && (forall s :: s in g.subs ==> s.neighbour != id)
    && (forall e :: e in g.pulls ==> e.1 != id)
    && (forall pid :: pid in g.routes ==> g.routes[pid] != id)
  }

  /** What an unsubscribe does to the count, whether or not it finds an entry. */
  lemma UnsubscribeHeld(g: Gateway, from: GatewayId, u: string, id: GatewayId, t: string)
    ensures Held(ReceiveControl(g, from, Unsubscribe(u)), t, id) ==
            if id == from && t == u && Held(g, t, id) > 0 then Held(g, t, id) - 1 else Held(g, t, id)
  {
    if Held(g, u, from) > 0 {
      ReceiveCounts(g, from, Unsubscribe(u), id, t);
    } else {
      CountPositive(g.subs, IsFrom(u, from));
      assert NeighbourSub(u, from) !in g.subs;
    }
  }

  lemma DropCount(topics: seq<string>, u: string, t: string)
    requires u in topics
    ensures Count(Drop(topics, u), Is(t)) == Count(topics, Is(t)) - (if t == u then 1 else 0)
  {
    CountRemove(topics, IndexOf(topics, u), Is(t));
  }

  lemma SubscribeTracked(g: Gateway, n: Neighbour, id: GatewayId, from: GatewayId, c: Control, t: string)
    requires TracksNeighbour(g, n, id) && (c.Subscribe? || c.Unsubscribe?)
    ensures var n' := if from == id then NeighbourAfterControl(g, n, id, c) else n;
      Held(ReceiveControl(g, from, c), t, id) <= Count(n'.topics, Is(t)) && n'.pullTopics == n.pullTopics
  {
    if c.Subscribe? {
      ReceiveCounts(g, from, c, id, t);
      CountConcat(n.topics, [c.topic], Is(t));
    } else {
      UnsubscribeHeld(g, from, c.topic, id, t);
    }
  }

  lemma PullTracked(g: Gateway, n: Neighbour, id: GatewayId, from: GatewayId, c: Control, t: string)
    requires TracksNeighbour(g, n, id) && (c.RegisterPull? || c.UnregisterPull?)
    ensures var n' := if from == id then NeighbourAfterControl(g, n, id, c) else n;
      ReceiveControl(g, from, c).pulls[(t, id)] == Count(n'.pullTopics, Is(t)) && n'.topics == n.topics
  {
    if from == id {
      if c.RegisterPull? {
        CountConcat(n.pullTopics, [c.topic], Is(t));
      } else if (c.topic, id) in g.pulls {
        CountPositive(n.pullTopics, Is(c.topic));
        DropCount(n.pullTopics, c.topic, t);
      }
    }
  }

  lemma ControlKeepsTracking(g: Gateway, n: Neighbour, id: GatewayId, from: GatewayId, c: Control)
    requires TracksNeighbour(g, n, id)
    ensures TracksNeighbour(ReceiveControl(g, from, c),
                            if from == id then NeighbourAfterControl(g, n, id, c) else n, id)
  {
    var g' := ReceiveControl(g, from, c);
    var n' := if from == id then NeighbourAfterControl(g, n, id, c) else n;
    assert g'.routes == g.routes && n'.ids == n.ids;
    forall t
      ensures Held(g', t, id) <= Count(n'.topics, Is(t)) && g'.pulls[(t, id)] == Count(n'.pullTopics, Is(t))
    {
      if c.Subscribe? || c.Unsubscribe? {
        SubscribeTracked(g, n, id, from, c, t);
        assert g'.pulls == g.pulls;
      } else {
        PullTracked(g, n, id, from, c, t);
        assert g'.subs == g.subs;
      }
    }
  }

  lemma ControlKeepsLinks(g: Gateway, from: GatewayId, c: Control)
    ensures forall k :: k in ReceiveControl(g, from, c).links <==> k in g.links
  {}

  lemma DataKeepsLinks(g: Gateway, from: GatewayId, d: Data)
    ensures forall k :: k in ReceiveData(g, from, d).links <==> k in g.links
  {
    DataRoutes(g, from, d);
    forall k ensures k in ReceiveData(g, from, d).links <==> k in g.links {
      assert k in ReceiveData(g, from, d).links.Keys <==> k in g.links.Keys;
    }
  }

  /** Received data changes only return routes, and only to the neighbour it came from. */
  lemma DataRoutes(g: Gateway, from: GatewayId, d: Data)
    ensures ReceiveData(g, from, d).subs == g.subs && ReceiveData(g, from, d).pulls == g.pulls
    ensures ReceiveData(g, from, d).routes == if d.PullRequest? then g.routes[d.pluginId := from] else g.routes
    ensures ReceiveData(g, from, d).links.Keys == g.links.Keys
  {
    match d
    case Push(_, _) =>
    case PullRequest(_, _, _) =>
    case PullResponse(_, _) =>
  }

  lemma DataKeepsTracking(g: Gateway, n: Neighbour, id: GatewayId, from: GatewayId, d: Data)
    requires TracksNeighbour(g, n, id)
    ensures TracksNeighbour(ReceiveData(g, from, d), if from == id then NeighbourAfterData(n, d) else n, id)
  {
    DataRoutes(g, from, d);
    var g' := ReceiveData(g, from, d);
    forall t ensures Held(g', t, id) == Held(g, t, id) {}
  }

  lemma {:induction false} WithdrawSubsClears(g: Gateway, topics: seq<string>, id: GatewayId)
    requires forall t :: Held(g, t, id) <= Count(topics, Is(t))
    ensures var g' := WithdrawSubs(g, topics, id);
      && (forall t :: Held(g', t, id) == 0)
      && (forall t, k :: k != id ==> Held(g', t, k) == Held(g, t, k))
      && g'.pulls == g.pulls && g'.routes == g.routes && g'.links.Keys == g.links.Keys
    decreases topics
  {
    if topics != [] {
      var g1 := ReceiveControl(g, id, Unsubscribe(topics[0]));
      forall t, k ensures k != id ==> Held(g1, t, k) == Held(g, t, k) {
        UnsubscribeHeld(g, id, topics[0], k, t);
      }
      forall t ensures Held(g1, t, id) <= Count(topics[1..], Is(t)) {
        UnsubscribeHeld(g, id, topics[0], id, t);
      }
      WithdrawSubsClears(g1, topics[1..], id);
    }
  }

  lemma {:induction false} WithdrawPullsClears(g: Gateway, topics: seq<string>, id: GatewayId)
    requires forall t :: g.pulls[(t, id)] == Count(topics, Is(t))
    ensures var g' := WithdrawPulls(g, topics, id);
      && (forall t :: g'.pulls[(t, id)] == 0)
      && (forall t, k :: k != id ==> g'.pulls[(t, k)] == g.pulls[(t, k)])
      && g'.subs == g.subs && g'.routes == g.routes && g'.links.Keys == g.links.Keys
    decreases topics
  {
    if topics != [] {
      var g1 := ReceiveControl(g, id, UnregisterPull(topics[0]));
      CountPositive(topics, Is(topics[0]));
      assert topics[0] in topics;
      forall t ensures g1.pulls[(t, id)] == Count(topics[1..], Is(t)) {
        assert Count(topics, Is(t)) == (if t == topics[0] then 1 else 0) + Count(topics[1..], Is(t));
      }
      WithdrawPullsClears(g1, topics[1..], id);
    }
  }

  lemma HeldByNone(g: Gateway, id: GatewayId)
    requires forall t :: Held(g, t, id) == 0
    ensures forall s :: s in g.subs ==> s.neighbour != id
  {
    forall s | s in g.subs ensures s.neighbour != id { HeldBySome(g, s); }
  }

  lemma HeldBySome(g: Gateway, s: NeighbourSub)
    ensures s in g.subs <==> Held(g, s.topic, s.neighbour) > 0
  {
    CountPositive(g.subs, IsFrom(s.topic, s.neighbour));
  }

  /** Withdrawing takes out the neighbour's entries and nobody else's. */
  lemma WithdrawClears(g: Gateway, n: Neighbour, id: GatewayId)
    requires TracksNeighbour(g, n, id)
    ensures var g' := WithdrawNeighbour(g, n, id);
      && Gone(g', id) && g'.links.Keys == g.links.Keys
      && (forall t, k :: k != id ==> Held(g', t, k) == Held(g, t, k) && g'.pulls[(t, k)] == g.pulls[(t, k)])
      && (forall pid :: pid in g'.routes ==> pid in g.routes && g'.routes[pid] == g.routes[pid])
  {
    WithdrawSubsClears(g, n.topics, id);
    var g1 := WithdrawSubs(g, n.topics, id);
    WithdrawPullsClears(g1, n.pullTopics, id);
    HeldByNone(g1, id);
    var g2 := WithdrawPulls(g1, n.pullTopics, id);
    forall e | e in g2.pulls ensures e.1 != id {
      assert e == (e.0, e.1);
      assert g2.pulls[(e.0, e.1)] > 0;
    }
  }

  /** After a neighbour's destructor no table mentions it, and every forward still finds its connection. */
  lemma CloseNeighbourForgets(g: Gateway, n: Neighbour, id: GatewayId)
    requires TracksNeighbour(g, n, id) && Connected(g)
    ensures Gone(CloseNeighbour(g, n, id), id) && Connected(CloseNeighbour(g, n, id))
    ensures forall k, q :: k != id && TracksNeighbour(g, q, k) ==> TracksNeighbour(CloseNeighbour(g, n, id), q, k)
  {
    WithdrawClears(g, n, id);
    var g' := WithdrawNeighbour(g, n, id);
    forall s | s in g'.subs ensures s.neighbour in g.links && s.neighbour != id {
      HeldBySome(g', s);
      HeldBySome(g, s);
    }
    forall e | e in g'.pulls ensures e.1 in g.links && e.1 != id {
      assert e == (e.0, e.1);
      assert g'.pulls[(e.0, e.1)] > 0;
      assert g.pulls[(e.0, e.1)] > 0;
    }
  }

  // ----- all connections of one gateway -----

  datatype Hub = Hub(g: Gateway, plugins: map<Handle, Plugin>, neighbours: map<GatewayId, Neighbour>)

  datatype Event =
    | PluginOpens(h: Handle)
    | PluginSays(h: Handle, m: PluginMessage)
    | PluginCloses(h: Handle)
    | NeighbourAssociates(id: GatewayId)
    | NeighbourTells(id: GatewayId, c: Control)
    | NeighbourSends(id: GatewayId, d: Data)
    | NeighbourCloses(id: GatewayId)

  /** A connection speaks while it lives, and a neighbour only after its association message. */
  predicate Possible(u: Hub, e: Event)
  {
    match e
    case PluginOpens(h) => h !in u.plugins
    case PluginSays(h, _) => h in u.plugins
    case PluginCloses(h) => h in u.plugins
    case NeighbourAssociates(id) => id !in u.neighbours
    case NeighbourTells(id, _) => id in u.neighbours
    case NeighbourSends(id, _) => id in u.neighbours
    case NeighbourCloses(id) => id in u.neighbours
  }

  function After(u: Hub, e: Event): Hub
    requires Possible(u, e)
  {
    match e
    case PluginOpens(h) => u.(plugins := u.plugins[h := Plugin([], [], {})])
    case PluginSays(h, m) =>
      u.(g := CoreAfterPlugin(u.g, h, m), plugins := u.plugins[h := PluginAfter(u.g, u.plugins[h], h, m)])
    case PluginCloses(h) =>
      u.(g := ClosePlugin(u.g, u.plugins[h], h), plugins := u.plugins - {h})
    case NeighbourAssociates(id) =>
      u.(g := RegisterConnection(u.g, id), neighbours := u.neighbours[id := Neighbour([], [], {})])
    case NeighbourTells(id, c) =>
      u.(g := ReceiveControl(u.g, id, c),
         neighbours := u.neighbours[id := NeighbourAfterControl(u.g, u.neighbours[id], id, c)])
    case NeighbourSends(id, d) =>
      u.(g := ReceiveData(u.g, id, d), neighbours := u.neighbours[id := NeighbourAfterData(u.neighbours[id], d)])
    case NeighbourCloses(id) =>
      u.(g := CloseNeighbour(u.g, u.neighbours[id], id), neighbours := u.neighbours - {id})
  }

  predicate Happens(u: Hub, run: seq<Event>, u': Hub)
    decreases run
  {
    if run == [] then u == u'
    else Possible(u, run[0]) && Happens(After(u, run[0]), run[1..], u')
  }

  const EmptyHub := Hub(EmptyGateway, map[], map[])

  ghost predicate PluginsTracked(u: Hub)
  {
    && (forall h :: h in u.plugins ==> TracksPlugin(u.g, u.plugins[h], h))
    && (forall h :: h !in u.plugins ==> Forgotten(u.g, h))
  }

  ghost predicate NeighboursTracked(u: Hub)
  {
    && (forall id :: id in u.neighbours ==> TracksNeighbour(u.g, u.neighbours[id], id))
    && (forall id :: id !in u.neighbours ==> Gone(u.g, id))
    && u.g.links.Keys == u.neighbours.Keys
  }

  /** The two agree on what plugins have entered. */
  ghost predicate SamePlugins(g: Gateway, g': Gateway)
  {
    g'.push == g.push && g'.pull == g.pull && g'.plugins == g.plugins
  }

  /** The two agree on what neighbours have entered. */
  ghost predicate SameNeighbours(g: Gateway, g': Gateway)
  {
    g'.subs == g.subs && g'.pulls == g.pulls && g'.routes == g.routes && g'.links.Keys == g.links.Keys
  }

  lemma {:induction false} WithdrawPushElsewhere(g: Gateway, topics: seq<string>, h: Handle)
    ensures SameNeighbours(g, WithdrawPush(g, topics, h))
    decreases topics
  {
    if topics != [] { WithdrawPushElsewhere(UnregisterData(g, topics[0], All, h), topics[1..], h); }
  }

  lemma {:induction false} WithdrawPullElsewhere(g: Gateway, topics: seq<string>, h: Handle)
    ensures SameNeighbours(g, WithdrawPull(g, topics, h))
    decreases topics
  {
    if topics != [] { WithdrawPullElsewhere(UnregisterPullInterest(g, topics[0], h), topics[1..], h); }
  }

  lemma CloseElsewhere(g: Gateway, p: Plugin, h: Handle)
    ensures SameNeighbours(g, ClosePlugin(g, p, h))
  {
    WithdrawPushElsewhere(g, p.pushTopics, h);
    WithdrawPullElsewhere(WithdrawPush(g, p.pushTopics, h), p.pullTopics, h);
  }

  lemma MessageElsewhere(g: Gateway, h: Handle, m: PluginMessage)
    ensures SameNeighbours(g, CoreAfterPlugin(g, h, m))
  {
    match m
    case RegisterDataMsg(_, _) =>
    case UnregisterDataMsg(_, _) =>
    case RegisterPullMsg(_, _) =>
    case UnregisterPullMsg(_) =>
    case PushMsg(_, _, _, _, _) =>
    case PullMsg(_, _, _, _) =>
    case AnswerMsg(_, _) =>
  }

  lemma {:induction false} WithdrawSubsElsewhere(g: Gateway, topics: seq<string>, id: GatewayId)
    ensures SamePlugins(g, WithdrawSubs(g, topics, id))
    decreases topics
  {
    if topics != [] { WithdrawSubsElsewhere(ReceiveControl(g, id, Unsubscribe(topics[0])), topics[1..], id); }
  }

  lemma {:induction false} WithdrawPullsElsewhere(g: Gateway, topics: seq<string>, id: GatewayId)
    ensures SamePlugins(g, WithdrawPulls(g, topics, id))
    decreases topics
  {
    if topics != [] { WithdrawPullsElsewhere(ReceiveControl(g, id, UnregisterPull(topics[0])), topics[1..], id); }
  }

  lemma CloseNeighbourElsewhere(g: Gateway, n: Neighbour, id: GatewayId)
    ensures SamePlugins(g, CloseNeighbour(g, n, id))
  {
    WithdrawSubsElsewhere(g, n.topics, id);
    WithdrawPullsElsewhere(WithdrawSubs(g, n.topics, id), n.pullTopics, id);
  }

  lemma NeighbourElsewhere(g: Gateway, id: GatewayId, c: Control, d: Data)
    ensures SamePlugins(g, ReceiveControl(g, id, c)) && SamePlugins(g, ReceiveData(g, id, d))
  {
  }

  lemma SamePluginsTracked(u: Hub, u': Hub)
    requires PluginsTracked(u) && u'.plugins == u.plugins && SamePlugins(u.g, u'.g)
    ensures PluginsTracked(u')
  {
    forall h | h in u'.plugins ensures TracksPlugin(u'.g, u'.plugins[h], h) {
      assert TracksPlugin(u.g, u.plugins[h], h);
    }
    forall h | h !in u'.plugins ensures Forgotten(u'.g, h) {
      assert Forgotten(u.g, h);
    }
  }

  lemma SameNeighboursTracked(u: Hub, u': Hub)
    requires NeighboursTracked(u) && u'.neighbours == u.neighbours && SameNeighbours(u.g, u'.g)
    ensures NeighboursTracked(u')
  {
    forall id | id in u'.neighbours ensures TracksNeighbour(u'.g, u'.neighbours[id], id) {
      assert TracksNeighbour(u.g, u.neighbours[id], id);
    }
    forall id | id !in u'.neighbours ensures Gone(u'.g, id) {
      assert Gone(u.g, id);
    }
  }

  lemma NobodyKnown(g: Gateway, h: Handle)
    ensures Forgotten(g, h) <==> TracksPlugin(g, Plugin([], [], {}), h)
  {
    if Forgotten(g, h) {
      forall t ensures Count(g.push, IsOf(h, t)) == 0 && Count(g.pull, IsOf(h, t)) == 0 {
        CountPositive(g.push, IsOf(h, t));
        CountPositive(g.pull, IsOf(h, t));
      }
    } else if TracksPlugin(g, Plugin([], [], {}), h) {
      NothingListed(g.push, h);
      NothingListed(g.pull, h);
    }
  }

  lemma SaidKeepsPlugins(u: Hub, k: Handle, m: PluginMessage)
    requires PluginsTracked(u) && Possible(u, PluginSays(k, m))
    ensures PluginsTracked(After(u, PluginSays(k, m)))
  {
    var u' := After(u, PluginSays(k, m));
    forall h | h in u'.plugins ensures TracksPlugin(u'.g, u'.plugins[h], h) {
      assert TracksPlugin(u.g, u.plugins[h], h);
      MessageKeepsTracking(u.g, u.plugins[h], h, k, m);
    }
    forall h | h !in u'.plugins ensures Forgotten(u'.g, h) {
      NobodyKnown(u.g, h);
      MessageKeepsTracking(u.g, Plugin([], [], {}), h, k, m);
      NobodyKnown(u'.g, h);
    }
  }

  lemma EventKeepsPlugins(u: Hub, e: Event)
    requires PluginsTracked(u) && Possible(u, e)
    ensures PluginsTracked(After(u, e))
  {
    match e
    case PluginOpens(h) =>
      assert Forgotten(u.g, h);
      NobodyKnown(u.g, h);
    case PluginSays(h, m) => SaidKeepsPlugins(u, h, m);
    case PluginCloses(h) => CloseForgets(u.g, u.plugins[h], h);
    case NeighbourAssociates(id) => SamePluginsTracked(u, After(u, e));
    case NeighbourTells(id, c) =>
      NeighbourElsewhere(u.g, id, c, Push("", ""));
      SamePluginsTracked(u, After(u, e));
    case NeighbourSends(id, d) =>
      NeighbourElsewhere(u.g, id, Subscribe(""), d);
      SamePluginsTracked(u, After(u, e));
    case NeighbourCloses(id) =>
      CloseNeighbourElsewhere(u.g, u.neighbours[id], id);
      SamePluginsTracked(u, After(u, e));
  }

  lemma NoNeighbourKnown(g: Gateway, id: GatewayId)
    ensures Gone(g, id) <==> TracksNeighbour(g, Neighbour([], [], {}), id)
  {
    if Gone(g, id) {
      forall t ensures Held(g, t, id) == 0 { CountPositive(g.subs, IsFrom(t, id)); }
      forall t ensures g.pulls[(t, id)] == 0 { assert (t, id) !in g.pulls; }
    } else if TracksNeighbour(g, Neighbour([], [], {}), id) {
      HeldByNone(g, id);
      forall e | e in g.pulls ensures e.1 != id { assert e == (e.0, e.1); }
    }
  }

  /** What is true of neighbour `k` in one state of the lists. */
  ghost predicate WellListed(g: Gateway, neighbours: map<GatewayId, Neighbour>, k: GatewayId)
  {
    if k in neighbours then TracksNeighbour(g, neighbours[k], k) else Gone(g, k)
  }

  lemma AllWellListed(u: Hub)
    requires u.g.links.Keys == u.neighbours.Keys && forall k: GatewayId :: WellListed(u.g, u.neighbours, k)
    ensures NeighboursTracked(u)
  {
    forall k | k in u.neighbours ensures TracksNeighbour(u.g, u.neighbours[k], k) {
      assert WellListed(u.g, u.neighbours, k);
    }
    forall k | k !in u.neighbours ensures Gone(u.g, k) { assert WellListed(u.g, u.neighbours, k); }
  }

  lemma ToldWellListed(g: Gateway, neighbours: map<GatewayId, Neighbour>, id: GatewayId, c: Control, k: GatewayId)
    requires WellListed(g, neighbours, k) && id in neighbours
    ensures WellListed(ReceiveControl(g, id, c), neighbours[id := NeighbourAfterControl(g, neighbours[id], id, c)], k)
  {
    if k in neighbours {
      ControlKeepsTracking(g, neighbours[k], k, id, c);
    } else {
      NoNeighbourKnown(g, k);
      ControlKeepsTracking(g, Neighbour([], [], {}), k, id, c);
      NoNeighbourKnown(ReceiveControl(g, id, c), k);
    }
  }

  lemma ToldKeepsNeighbours(u: Hub, id: GatewayId, c: Control)
    requires NeighboursTracked(u) && Possible(u, NeighbourTells(id, c))
    ensures NeighboursTracked(After(u, NeighbourTells(id, c)))
  {
    var u' := After(u, NeighbourTells(id, c));
    assert u'.g.links.Keys == u.g.links.Keys;
    forall k: GatewayId ensures WellListed(u'.g, u'.neighbours, k) {
      assert WellListed(u.g, u.neighbours, k);
      ToldWellListed(u.g, u.neighbours, id, c, k);
    }
    AllWellListed(u');
  }

  lemma SentWellListed(g: Gateway, neighbours: map<GatewayId, Neighbour>, id: GatewayId, d: Data, k: GatewayId)
    requires WellListed(g, neighbours, k) && id in neighbours
    ensures WellListed(ReceiveData(g, id, d), neighbours[id := NeighbourAfterData(neighbours[id], d)], k)
  {
    if k in neighbours {
      DataKeepsTracking(g, neighbours[k], k, id, d);
    } else {
      NoNeighbourKnown(g, k);
      DataKeepsTracking(g, Neighbour([], [], {}), k, id, d);
      NoNeighbourKnown(ReceiveData(g, id, d), k);
    }
  }

  lemma SentKeepsNeighbours(u: Hub, id: GatewayId, d: Data)
    requires NeighboursTracked(u) && Possible(u, NeighbourSends(id, d))
    ensures NeighboursTracked(After(u, NeighbourSends(id, d)))
  {
    var u' := After(u, NeighbourSends(id, d));
    DataRoutes(u.g, id, d);
    forall k: GatewayId ensures WellListed(u'.g, u'.neighbours, k) {
      assert WellListed(u.g, u.neighbours, k);
      SentWellListed(u.g, u.neighbours, id, d, k);
    }
    AllWellListed(u');
  }

  lemma ClosedKeepsNeighbours(u: Hub, id: GatewayId)
    requires NeighboursTracked(u) && Connected(u.g) && Possible(u, NeighbourCloses(id))
    ensures NeighboursTracked(After(u, NeighbourCloses(id)))
  {
    var u' := After(u, NeighbourCloses(id));
    assert u'.g == CloseNeighbour(u.g, u.neighbours[id], id);
    forall k | k in u'.neighbours ensures TracksNeighbour(u'.g, u'.neighbours[k], k) {
      StayTracked(u, id, k);
    }
    forall k | k !in u'.neighbours ensures Gone(u'.g, k) {
      StayGone(u, id, k);
    }
    WithdrawKeepsLinks(u.g, u.neighbours[id], id);
  }

  lemma WithdrawKeepsLinks(g: Gateway, n: Neighbour, id: GatewayId)
    requires TracksNeighbour(g, n, id)
    ensures CloseNeighbour(g, n, id).links.Keys == g.links.Keys - {id}
  {
    WithdrawClears(g, n, id);
  }

  lemma StayTracked(u: Hub, id: GatewayId, k: GatewayId)
    requires NeighboursTracked(u) && Connected(u.g) && id in u.neighbours && k in u.neighbours && k != id
    ensures TracksNeighbour(CloseNeighbour(u.g, u.neighbours[id], id), u.neighbours[k], k)
  {
    CloseNeighbourForgets(u.g, u.neighbours[id], id);
    assert TracksNeighbour(u.g, u.neighbours[k], k);
  }

  lemma StayGone(u: Hub, id: GatewayId, k: GatewayId)
    requires NeighboursTracked(u) && Connected(u.g) && id in u.neighbours && (k == id || k !in u.neighbours)
    ensures Gone(CloseNeighbour(u.g, u.neighbours[id], id), k)
  {
    CloseNeighbourForgets(u.g, u.neighbours[id], id);
    if k != id {
      assert Gone(u.g, k);
      NoNeighbourKnown(u.g, k);
      assert TracksNeighbour(CloseNeighbour(u.g, u.neighbours[id], id), Neighbour([], [], {}), k);
      NoNeighbourKnown(CloseNeighbour(u.g, u.neighbours[id], id), k);
    }
  }

  lemma AssociatedKeepsNeighbours(u: Hub, id: GatewayId)
    requires NeighboursTracked(u) && Possible(u, NeighbourAssociates(id))
    ensures NeighboursTracked(After(u, NeighbourAssociates(id)))
  {
    var u' := After(u, NeighbourAssociates(id));
    assert Gone(u.g, id);
    NoNeighbourKnown(u.g, id);
    forall k | k in u'.neighbours ensures TracksNeighbour(u'.g, u'.neighbours[k], k) {
      assert k != id ==> TracksNeighbour(u.g, u.neighbours[k], k);
    }
    forall k | k !in u'.neighbours ensures Gone(u'.g, k) { assert Gone(u.g, k); }
  }

  lemma EveryoneConnected(u: Hub)
    requires NeighboursTracked(u)
    ensures Connected(u.g)
  {
    forall s | s in u.g.subs ensures s.neighbour in u.g.links {
      assert s.neighbour in u.neighbours || Gone(u.g, s.neighbour);
    }
    forall e | e in u.g.pulls ensures e.1 in u.g.links {
      assert e.1 in u.neighbours || Gone(u.g, e.1);
    }
  }

  lemma EventKeepsNeighbours(u: Hub, e: Event)
    requires NeighboursTracked(u) && Possible(u, e)
    ensures NeighboursTracked(After(u, e))
  {
    match e
    case PluginOpens(h) => SameNeighboursTracked(u, After(u, e));
    case PluginSays(h, m) =>
      MessageElsewhere(u.g, h, m);
      SameNeighboursTracked(u, After(u, e));
    case PluginCloses(h) =>
      CloseElsewhere(u.g, u.plugins[h], h);
      SameNeighboursTracked(u, After(u, e));
    case NeighbourAssociates(id) => AssociatedKeepsNeighbours(u, id);
    case NeighbourTells(id, c) => ToldKeepsNeighbours(u, id, c);
    case NeighbourSends(id, d) => SentKeepsNeighbours(u, id, d);
    case NeighbourCloses(id) =>
      EveryoneConnected(u);
      ClosedKeepsNeighbours(u, id);
  }

  lemma {:induction false} HistoryTracked(u: Hub, run: seq<Event>, u': Hub)
    requires PluginsTracked(u) && NeighboursTracked(u) && Happens(u, run, u')
    ensures PluginsTracked(u') && NeighboursTracked(u')
    decreases run
  {
    if run != [] {
      EventKeepsPlugins(u, run[0]);
      EventKeepsNeighbours(u, run[0]);
      HistoryTracked(After(u, run[0]), run[1..], u');
    }
  }

  lemma EmptyTracked()
    ensures PluginsTracked(EmptyHub) && NeighboursTracked(EmptyHub)
  {
    forall h: Handle ensures Forgotten(EmptyHub.g, h) {}
    forall id: GatewayId ensures Gone(EmptyHub.g, id) {}
  }

  /** In every run, everything the tables name is alive: plugins, and neighbours to forward to. */
  lemma TablesNameTheLiving(run: seq<Event>, u: Hub)
    requires Happens(EmptyHub, run, u)
    ensures forall topic :: MatchingHandlers(u.g.push, topic) <= u.plugins.Keys
    ensures forall s :: s in u.g.pull ==> s.handler in u.plugins
    ensures forall pid :: pid in u.g.plugins ==> u.g.plugins[pid] in u.plugins
    ensures Connected(u.g) && u.g.links.Keys == u.neighbours.Keys
    ensures forall pid :: pid in u.g.routes ==> u.g.routes[pid] in u.g.links
  {
    EmptyTracked();
    HistoryTracked(EmptyHub, run, u);
    EveryoneConnected(u);
    forall s | s in u.g.push ensures s.handler in u.plugins {
      assert s.handler in u.plugins || Forgotten(u.g, s.handler);
    }
    forall s | s in u.g.pull ensures s.handler in u.plugins {
      assert s.handler in u.plugins || Forgotten(u.g, s.handler);
    }
    forall pid | pid in u.g.plugins ensures u.g.plugins[pid] in u.plugins {
      assert u.g.plugins[pid] in u.plugins || Forgotten(u.g, u.g.plugins[pid]);
    }
    forall pid | pid in u.g.routes ensures u.g.routes[pid] in u.g.links {
      assert u.g.routes[pid] in u.neighbours || Gone(u.g, u.g.routes[pid]);
    }
  }
}
