/**
 The routing tables of one gateway and what each gateway operation does to them.
 A multimap is the sequence of its entries in insertion order.  A plugin connection
 is known by its handle, a neighbour connection by the neighbour's gateway id.
 */
module Tables {
  import opened Topology

  type Handle = nat

  datatype Scope = Global | Local | All

  /** Registrations are made with `Global` or `Local`; `All` only selects among them. */
  type OwnScope = s: Scope | s != All witness Local

  datatype LocalSub = LocalSub(topic: string, handler: Handle, scope: OwnScope)

  datatype NeighbourSub = NeighbourSub(topic: string, neighbour: GatewayId)

  /** Control messages all travel with one priority, so one connection keeps their order. */
  datatype Control =
    | Subscribe(topic: string)
    | Unsubscribe(topic: string)
    | RegisterPull(topic: string)
    | UnregisterPull(topic: string)

  /** `body` stands for the fields that gateways only pass on. */
  datatype Data =
    | Push(topic: string, body: string)
    | PullRequest(pluginId: string, topic: string, body: string)
    | PullResponse(pluginId: string, body: string)

  /** What is queued on the connection to one neighbour. */
  datatype Link = Link(control: seq<Control>, data: seq<Data>)

  datatype Delivery = Delivery(handler: Handle, data: Data)

  datatype Gateway = Gateway(
    push: seq<LocalSub>,
    pull: seq<LocalSub>,
    plugins: map<string, Handle>,
    subs: seq<NeighbourSub>,
    pulls: multiset<(string, GatewayId)>,
    routes: map<string, GatewayId>,
    links: map<GatewayId, Link>,
    delivered: multiset<Delivery>)

  const EmptyGateway := Gateway([], [], map[], [], multiset{}, map[], map[], multiset{})

  // ----- looking things up -----

  predicate Matches(s: LocalSub, topic: string, scope: Scope, h: Handle)
  {
    s.topic == topic && s.handler == h && (s.scope == scope || scope == All)
  }

  /** The first entry that an unregistration removes, or the length when there is none. */
  function FirstMatch(subs: seq<LocalSub>, topic: string, scope: Scope, h: Handle): (i: nat)
    ensures i <= |subs|
    ensures i < |subs| ==> Matches(subs[i], topic, scope, h)
    ensures forall j :: 0 <= j < i ==> !Matches(subs[j], topic, scope, h)
  {
    if subs == [] || Matches(subs[0], topic, scope, h) then 0
    else 1 + FirstMatch(subs[1..], topic, scope, h)
  }

  function Without<T>(s: seq<T>, i: nat): (r: seq<T>)
    requires i <= |s|
  {
    if i < |s| then s[..i] + s[i + 1..] else s
  }

  function IndexOf<T(==)>(s: seq<T>, x: T): (i: nat)
    ensures i <= |s|
    ensures i < |s| ==> s[i] == x
    ensures forall j :: 0 <= j < i ==> s[j] != x
    ensures i == |s| <==> x !in s
  {
    if s == [] || s[0] == x then 0 else 1 + IndexOf(s[1..], x)
  }

  /** Plugins with a subscription to a prefix of `topic`, in any scope. */
  function MatchingHandlers(subs: seq<LocalSub>, topic: string): set<Handle>
  {
    set s | s in subs && s.topic <= topic :: s.handler
  }

  /** Plugins with a global subscription to a prefix of `topic`. */
  function GlobalHandlers(subs: seq<LocalSub>, topic: string): set<Handle>
  {
    set s | s in subs && s.topic <= topic && s.scope == Global :: s.handler
  }

  /** Neighbours with a subscription to a prefix of `topic`. */
  function NeighboursFor(subs: seq<NeighbourSub>, topic: string): set<GatewayId>
  {
    set s | s in subs && s.topic <= topic :: s.neighbour
  }

  /** Neighbours that registered for pulls of exactly `topic`. */
  function PullNeighbours(pulls: multiset<(string, GatewayId)>, topic: string): set<GatewayId>
  {
    set e | e in pulls && e.0 == topic :: e.1
  }

  // ----- sending -----

  function Broadcast(links: map<GatewayId, Link>, except: set<GatewayId>, c: Control): map<GatewayId, Link>
  {
    map k | k in links :: if k in except then links[k] else links[k].(control := links[k].control + [c])
  }

  function SendTo(links: map<GatewayId, Link>, targets: set<GatewayId>, d: Data): map<GatewayId, Link>
  {
    map k | k in links :: if k in targets then links[k].(data := links[k].data + [d]) else links[k]
  }

  function Deliveries(hs: set<Handle>, d: Data): multiset<Delivery>
  {
    multiset(set h | h in hs :: Delivery(h, d))
  }

  /** One delivery for each registration for exactly `topic` that `sender` did not make. */
  function PullDeliveries(pull: seq<LocalSub>, topic: string, sender: set<Handle>, d: Data): multiset<Delivery>
  {
    if pull == [] then multiset{} else
      (if pull[0].topic == topic && pull[0].handler !in sender
       then multiset{Delivery(pull[0].handler, d)} else multiset{})
      + PullDeliveries(pull[1..], topic, sender, d)
  }

  // ----- operations of local plugins -----

  function RegisterData(g: Gateway, topic: string, scope: OwnScope, h: Handle): Gateway
  {
    g.(push := g.push + [LocalSub(topic, h, scope)],
       links := if scope == Global then Broadcast(g.links, {}, Subscribe(topic)) else g.links)
  }

  function UnregisterData(g: Gateway, topic: string, scope: Scope, h: Handle): Gateway
  {
    var i := FirstMatch(g.push, topic, scope, h);
    g.(push := Without(g.push, i),
       links := if i < |g.push| && g.push[i].scope == Global
                then Broadcast(g.links, {}, Unsubscribe(topic)) else g.links)
  }

  function RegisterPullInterest(g: Gateway, topic: string, scope: OwnScope, h: Handle): Gateway
  {
    g.(pull := g.pull + [LocalSub(topic, h, scope)],
       links := if scope == Global then Broadcast(g.links, {}, RegisterPull(topic)) else g.links)
  }

  /** The withdrawal stays local: the neighbours are never told. */
  function UnregisterPullInterest(g: Gateway, topic: string, h: Handle): Gateway
  {
    g.(pull := Without(g.pull, FirstMatch(g.pull, topic, All, h)))
  }

  function PushLocal(g: Gateway, sender: Handle, topic: string, body: string,
                     device: string, scope: OwnScope, ack: bool): Gateway
  {
    g.(delivered := g.delivered + Deliveries(MatchingHandlers(g.push, topic) - {sender}, Push(topic, body)),
       plugins := if ack then g.plugins[device := sender] else g.plugins,
       links := if scope == Global then SendTo(g.links, NeighboursFor(g.subs, topic), Push(topic, body)) else g.links)
  }

  function PullLocal(g: Gateway, sender: Handle, pid: string, topic: string, body: string, scope: OwnScope): Gateway
  {
    var d := PullRequest(pid, topic, body);
    g.(delivered := g.delivered + PullDeliveries(g.pull, topic, {sender}, d),
       plugins := g.plugins[pid := sender],
       links := if scope == Global then SendTo(g.links, PullNeighbours(g.pulls, topic), d) else g.links)
  }

  /** An answer goes to the plugin with this id or else back along the recorded route. */
  function Answer(g: Gateway, pid: string, body: string, origin: set<GatewayId>): Gateway
  {
    var d := PullResponse(pid, body);
    if pid in g.plugins then g.(delivered := g.delivered + multiset{Delivery(g.plugins[pid], d)})
    else if pid in g.routes && g.routes[pid] !in origin then g.(links := SendTo(g.links, {g.routes[pid]}, d))
    else g
  }

  function ForgetPlugin(g: Gateway, pid: string, h: Handle): Gateway
  {
    if pid in g.plugins && g.plugins[pid] == h then g.(plugins := g.plugins - {pid}) else g
  }

  // ----- operations of neighbour connections -----

  /** A subscribe message for every global registration. */
  function LocalReplay(push: seq<LocalSub>): seq<Control>
  {
    if push == [] then [] else
      (if push[0].scope == Global then [Subscribe(push[0].topic)] else []) + LocalReplay(push[1..])
  }

  /** A subscribe message for every subscription of another neighbour, once for each reference. */
  function NeighbourReplay(subs: seq<NeighbourSub>, id: GatewayId): seq<Control>
  {
    if subs == [] then [] else
      (if subs[0].neighbour != id then [Subscribe(subs[0].topic)] else []) + NeighbourReplay(subs[1..], id)
  }

  function RegisterConnection(g: Gateway, id: GatewayId): Gateway
  {
    g.(links := g.links[id := Link(LocalReplay(g.push) + NeighbourReplay(g.subs, id), [])])
  }

  function UnregisterConnection(g: Gateway, id: GatewayId): Gateway
  {
    g.(links := g.links - {id})
  }

  function ReceiveControl(g: Gateway, from: GatewayId, c: Control): Gateway
  {
    match c
    case Subscribe(t) =>
      g.(subs := g.subs + [NeighbourSub(t, from)], links := Broadcast(g.links, {from}, c))
    case Unsubscribe(t) =>
      g.(subs := Without(g.subs, IndexOf(g.subs, NeighbourSub(t, from))), links := Broadcast(g.links, {from}, c))
    case RegisterPull(t) =>
      g.(pulls := g.pulls + multiset{(t, from)}, links := Broadcast(g.links, {from}, c))
    case UnregisterPull(t) =>
      g.(pulls := g.pulls - multiset{(t, from)}, links := Broadcast(g.links, {from}, c))
  }

  function ReceiveData(g: Gateway, from: GatewayId, d: Data): Gateway
  {
    match d
    case Push(topic, _) =>
      g.(delivered := g.delivered + Deliveries(GlobalHandlers(g.push, topic), d),
         links := SendTo(g.links, NeighboursFor(g.subs, topic) - {from}, d))
    case PullRequest(pid, topic, _) =>
      g.(delivered := g.delivered + PullDeliveries(g.pull, topic, {}, d),
         routes := g.routes[pid := from],
         links := SendTo(g.links, PullNeighbours(g.pulls, topic) - {from}, d))
    case PullResponse(pid, body) =>
      Answer(g, pid, body, {from})
  }

  function ForgetReturn(g: Gateway, pid: string, from: GatewayId): Gateway
  {
    if pid in g.routes && g.routes[pid] == from then g.(routes := g.routes - {pid}) else g
  }

  /** Every neighbour named in a table that is used to forward has a live connection. */
  ghost predicate Connected(g: Gateway)
  {
    && (forall s :: s in g.subs ==> s.neighbour in g.links)
    && (forall e :: e in g.pulls ==> e.1 in g.links)
  }

  /** Naming no more neighbours, and keeping the connections. */
  lemma ConnectedSame(g: Gateway, g': Gateway)
    requires Connected(g) && g.links.Keys <= g'.links.Keys
    requires g'.subs == g.subs && g'.pulls <= g.pulls
    ensures Connected(g')
  {
    forall s | s in g'.subs ensures s.neighbour in g'.links { assert s.neighbour in g.links.Keys; }
    forall e | e in g'.pulls ensures e.1 in g'.links { assert e in g.pulls && e.1 in g.links.Keys; }
  }
}
