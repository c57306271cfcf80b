/**
 What a gateway's reaction to a plugin or to a neighbour puts into each queue, hands to each
 plugin and leaves in each table, told by the entries that were there before.
 */
module Effects {
  import opened Sums
  import opened Topology
  import opened Tables
  import opened Network
  import opened Conservation
  import opened PushDelivery
  import opened Registrations
  import opened Routing

  // ----- data queues -----

  /** A subscription of the neighbour to a prefix of the type. */
  ghost predicate Subscribed(g: Gateway, k: GatewayId, topic: string)
  {
    exists s :: s in g.subs && s.neighbour == k && s.topic <= topic
  }

  /** What a plugin does queues at most one data message for each neighbour. */
  lemma QueuedForNeighbour(g: Gateway, s: LocalStep, k: GatewayId)
    requires k in g.links
    ensures Act(g, s).links.Keys == g.links.Keys
    ensures Act(g, s).links[k].data == g.links[k].data +
            match s {
              case DoPush(_, topic, body, _, scope, _) =>
                if scope == Global && Subscribed(g, k, topic) then [Push(topic, body)] else []
              case DoPull(_, pid, topic, body, scope) =>
                if scope == Global && (topic, k) in g.pulls then [PullRequest(pid, topic, body)] else []
              case DoAnswer(pid, body) =>
                if pid !in g.plugins && pid in g.routes && g.routes[pid] == k then [PullResponse(pid, body)] else []
              case _ => []
            }
  {
    match s
    case DoPush(_, topic, body, _, _, _) =>
      StartSends(g, s, Push(topic, body));
      SubscribedIff(g, k, topic);
    case DoPull(_, pid, topic, body, _) =>
      StartSends(g, s, PullRequest(pid, topic, body));
      RegisteredIff(g, k, topic);
    case _ =>
  }

  lemma SubscribedIff(g: Gateway, k: GatewayId, topic: string)
    ensures k in NeighboursFor(g.subs, topic) <==> Subscribed(g, k, topic)
  {
  }

  lemma RegisteredIff(g: Gateway, k: GatewayId, topic: string)
    ensures k in PullNeighbours(g.pulls, topic) <==> (topic, k) in g.pulls
  {
  }

  /** What arrives is queued for at most each other neighbour, never for the sender. */
  lemma PassedToNeighbour(g: Gateway, from: GatewayId, d: Data, k: GatewayId)
    requires k in g.links
    ensures ReceiveData(g, from, d).links.Keys == g.links.Keys
    ensures ReceiveData(g, from, d).links[k].control == g.links[k].control
    ensures ReceiveData(g, from, d).links[k].data == g.links[k].data +
            if k == from then [] else
              match d {
                case Push(topic, _) => if Subscribed(g, k, topic) then [d] else []
                case PullRequest(_, topic, _) => if (topic, k) in g.pulls then [d] else []
                case PullResponse(pid, _) =>
                  if pid !in g.plugins && pid in g.routes && g.routes[pid] == k then [d] else []
              }
  {
    match d
    case Push(topic, _) => SubscribedIff(g, k, topic);
    case PullRequest(_, topic, _) => RegisteredIff(g, k, topic);
    case PullResponse(_, _) =>
  }

  // ----- control queues -----

  /** A neighbour's control message is passed on to all other neighbours unchanged, and counted for the sender. */
  lemma ControlPassedOn(g: Gateway, from: GatewayId, c: Control, k: GatewayId)
    requires k in g.links
    ensures ReceiveControl(g, from, c).links.Keys == g.links.Keys
    ensures ReceiveControl(g, from, c).links[k] ==
            g.links[k].(control := g.links[k].control + if k == from then [] else [c])
  {
  }

  /** References for a neighbour, a subscription more or less; one that is missing cannot be taken. */
  lemma ReferencesCounted(g: Gateway, from: GatewayId, c: Control, b: GatewayId, t: string)
    ensures Held(ReceiveControl(g, from, c), t, b) == Held(g, t, b) +
            (if b == from && c == Subscribe(t) then 1
             else if b == from && c == Unsubscribe(t) && Held(g, t, b) > 0 then -1 else 0)
    ensures ReceiveControl(g, from, c).pulls[(t, b)] == g.pulls[(t, b)] +
            (if b == from && c == RegisterPull(t) then 1
             else if b == from && c == UnregisterPull(t) && g.pulls[(t, b)] > 0 then -1 else 0)
  {
    match c
    case Subscribe(topic) => EntryCounts(g.subs, topic, from, b, t);
    case Unsubscribe(topic) =>
      CountPositive(g.subs, IsFrom(topic, from));
      if Held(g, topic, from) > 0 {
        EntryUncounts(g.subs, topic, from, b, t);
      } else {
        assert NeighbourSub(topic, from) in g.subs ==> IsFrom(topic, from)(NeighbourSub(topic, from));
      }
    case _ =>
  }

  /** A new connection starts with nothing but the replay on it; the other connections stay. */
  lemma ConnectionStarts(g: Gateway, id: GatewayId, t: string)
    ensures RegisterConnection(g, id).links.Keys == g.links.Keys + {id}
    ensures forall k :: k in g.links && k != id ==> RegisterConnection(g, id).links[k] == g.links[k]
    ensures RegisterConnection(g, id).links[id].data == []
    ensures Flow(RegisterConnection(g, id).links[id].control, t) == Demand(g, t, id)
    ensures forall c :: c in RegisterConnection(g, id).links[id].control ==> c.Subscribe?
  {
    LocalReplayFlow(g.push, t);
    NeighbourReplayFlow(g.subs, id, t);
    FlowConcat(LocalReplay(g.push), NeighbourReplay(g.subs, id), t);
  }

  // ----- what plugins are handed -----

  /** An entry of the plugin for a prefix of the type. */
  ghost predicate HasSubscription(g: Gateway, h: Handle, topic: string)
  {
    exists s :: s in g.push && s.handler == h && s.topic <= topic
  }

  ghost predicate HasGlobalSubscription(g: Gateway, h: Handle, topic: string)
  {
    exists s :: s in g.push && s.handler == h && s.topic <= topic && s.scope == Global
  }

  /** What one plugin does hands to plugin `h`, for each message. */
  lemma HandedByPlugin(g: Gateway, s: LocalStep, h: Handle, d: Data)
    ensures Act(g, s).delivered[Delivery(h, d)] == g.delivered[Delivery(h, d)] +
            match s {
              case DoPush(k, topic, body, _, _, _) =>
                if d == Push(topic, body) && h != k && HasSubscription(g, h, topic) then 1 else 0
              case DoPull(k, pid, topic, body, _) =>
                if d == PullRequest(pid, topic, body) && h != k then Count(g.pull, MadeBy(topic, h)) else 0
              case DoAnswer(pid, body) =>
                if d == PullResponse(pid, body) && pid in g.plugins && g.plugins[pid] == h then 1 else 0
              case _ => 0
            }
  {
    match s
    case DoPush(k, topic, body, _, _, _) =>
      DeliveredCount(MatchingHandlers(g.push, topic) - {k}, Push(topic, body), h, d);
      assert h in MatchingHandlers(g.push, topic) <==> HasSubscription(g, h, topic);
    case DoPull(k, pid, topic, body, _) =>
      var e := PullRequest(pid, topic, body);
      RequestHanded(g.pull, topic, {k}, e, h, d);
    case _ =>
  }

  /** What arrives from a neighbour hands to plugin `h`. */
  lemma HandedByNeighbour(g: Gateway, from: GatewayId, e: Data, h: Handle, d: Data)
    ensures ReceiveData(g, from, e).delivered[Delivery(h, d)] == g.delivered[Delivery(h, d)] +
            if d != e then 0 else
              match e {
                case Push(topic, _) => if HasGlobalSubscription(g, h, topic) then 1 else 0
                case PullRequest(_, topic, _) => Count(g.pull, MadeBy(topic, h))
                case PullResponse(pid, _) => if pid in g.plugins && g.plugins[pid] == h then 1 else 0
              }
  {
    match e
    case Push(topic, _) =>
      DeliveredCount(GlobalHandlers(g.push, topic), e, h, d);
      assert h in GlobalHandlers(g.push, topic) <==> HasGlobalSubscription(g, h, topic);
    case PullRequest(_, topic, _) =>
      RequestHanded(g.pull, topic, {}, e, h, d);
    case PullResponse(_, _) =>
  }

  // ----- return ids -----

  /** After what a plugin does, whose an id is: of who asked last with it, unless that plugin has given it up. */
  lemma IdsOfPlugins(g: Gateway, s: LocalStep, p: string)
    ensures p in Act(g, s).plugins <==>
            (if s.DoForget? && s.pid == p then p in g.plugins && g.plugins[p] != s.h
             else p in g.plugins || (s.DoPull? && s.pid == p) || (s.DoPush? && s.ack && s.device == p))
    ensures p in Act(g, s).plugins ==>
            (Act(g, s).plugins[p] ==
             if (s.DoPull? && s.pid == p) || (s.DoPush? && s.ack && s.device == p) then s.h
             else if p in g.plugins then g.plugins[p] else 0)
    ensures Act(g, s).routes == g.routes
  {
  }

  /** A request leaves the way back to where it came from; nothing else that arrives changes the ids. */
  lemma IdsOfRequests(g: Gateway, from: GatewayId, d: Data, p: string)
    ensures ReceiveData(g, from, d).plugins == g.plugins
    ensures p in ReceiveData(g, from, d).routes <==> p in g.routes || (d.PullRequest? && d.pluginId == p)
    ensures p in ReceiveData(g, from, d).routes ==>
            (ReceiveData(g, from, d).routes[p] ==
             if d.PullRequest? && d.pluginId == p then from else if p in g.routes then g.routes[p] else from)
  {
  }

  /** The way back is given up exactly if it leads to this neighbour. */
  lemma WayBackGivenUp(g: Gateway, pid: string, from: GatewayId, p: string)
    ensures p in ForgetReturn(g, pid, from).routes <==> p in g.routes && (p == pid ==> g.routes[p] != from)
    ensures p in ForgetReturn(g, pid, from).routes ==> ForgetReturn(g, pid, from).routes[p] == g.routes[p]
    ensures ForgetReturn(g, pid, from).(routes := g.routes) == g
  {
  }
}
