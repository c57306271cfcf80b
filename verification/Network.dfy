/**
 The network of gateways as a step system.  Every handler of every gateway is one
 atomic step.  A connection delivers its control messages in the order they were
 queued; data messages have priorities of their own and may overtake each other.
 */
module Network {
  import opened Topology
  import opened Tables

  /**
   `conns` holds both directions of every open connection.  `greeting` holds the
   directions on which the association message, always the first one queued, is
   still under way.
   */
  datatype Net = Net(
    nodes: map<GatewayId, Gateway>,
    conns: set<(GatewayId, GatewayId)>,
    greeting: set<(GatewayId, GatewayId)>)

  /** What one gateway does on its own account. */
  datatype LocalStep =
    | DoRegisterData(topic: string, scope: OwnScope, h: Handle)
    | DoUnregisterData(topic: string, anyScope: Scope, h: Handle)
    | DoRegisterPull(topic: string, scope: OwnScope, h: Handle)
    | DoUnregisterPull(topic: string, h: Handle)
    | DoPush(h: Handle, topic: string, body: string, device: string, scope: OwnScope, ack: bool)
    | DoPull(h: Handle, pid: string, topic: string, body: string, scope: OwnScope)
    | DoAnswer(pid: string, body: string)
    | DoForget(pid: string, h: Handle)

  datatype Step =
    | Perform(at: GatewayId, step: LocalStep)
    | Connect(a: GatewayId, b: GatewayId)
    | Associate(from: GatewayId, to: GatewayId)
    | DeliverControl(from: GatewayId, to: GatewayId)
    | DeliverData(from: GatewayId, to: GatewayId, i: nat)

  function Act(g: Gateway, s: LocalStep): Gateway
  {
    match s
    case DoRegisterData(topic, scope, h) => RegisterData(g, topic, scope, h)
    case DoUnregisterData(topic, scope, h) => UnregisterData(g, topic, scope, h)
    case DoRegisterPull(topic, scope, h) => RegisterPullInterest(g, topic, scope, h)
    case DoUnregisterPull(topic, h) => UnregisterPullInterest(g, topic, h)
    case DoPush(h, topic, body, device, scope, ack) => PushLocal(g, h, topic, body, device, scope, ack)
    case DoPull(h, pid, topic, body, scope) => PullLocal(g, h, pid, topic, body, scope)
    case DoAnswer(pid, body) => Answer(g, pid, body, {})
    case DoForget(pid, h) => ForgetPlugin(g, pid, h)
  }

  predicate Open(n: Net, from: GatewayId, to: GatewayId)
  {
    from in n.nodes && to in n.nodes && from != to && (from, to) !in n.greeting && to in n.nodes[from].links
  }

  predicate Enabled(n: Net, s: Step)
  {
    match s
    case Perform(at, _) => at in n.nodes
    case Connect(a, b) => a in n.nodes && b in n.nodes && a != b && (a, b) !in n.conns
    case Associate(from, to) => (from, to) in n.greeting && from in n.nodes && to in n.nodes
    case DeliverControl(from, to) => Open(n, from, to) && n.nodes[from].links[to].control != []
    case DeliverData(from, to, i) => Open(n, from, to) && i < |n.nodes[from].links[to].data|
  }

  /** `g` after its connection to `to` has handed over its first control message. */
  function TakeControl(g: Gateway, to: GatewayId): Gateway
    requires to in g.links && g.links[to].control != []
  {
    g.(links := g.links[to := g.links[to].(control := g.links[to].control[1..])])
  }

  function TakeData(g: Gateway, to: GatewayId, i: nat): Gateway
    requires to in g.links && i < |g.links[to].data|
  {
    g.(links := g.links[to := g.links[to].(data := Without(g.links[to].data, i))])
  }

  function Apply(n: Net, s: Step): Net
    requires Enabled(n, s)
  {
    match s
    case Perform(at, step) => n.(nodes := n.nodes[at := Act(n.nodes[at], step)])
    case Connect(a, b) =>
      n.(conns := n.conns + {(a, b), (b, a)}, greeting := n.greeting + {(a, b), (b, a)})
    case Associate(from, to) =>
      n.(nodes := n.nodes[to := RegisterConnection(n.nodes[to], from)], greeting := n.greeting - {(from, to)})
    case DeliverControl(from, to) =>
      var c := n.nodes[from].links[to].control[0];
      n.(nodes := n.nodes[from := TakeControl(n.nodes[from], to)][to := ReceiveControl(n.nodes[to], from, c)])
    case DeliverData(from, to, i) =>
      var d := n.nodes[from].links[to].data[i];
      n.(nodes := n.nodes[from := TakeData(n.nodes[from], to, i)][to := ReceiveData(n.nodes[to], from, d)])
  }

  /** `n'` is reached from `n` by the steps of `run`. */
  predicate Runs(n: Net, run: seq<Step>, n': Net)
    decreases run
  {
    if run == [] then n == n'
    else Enabled(n, run[0]) && Runs(Apply(n, run[0]), run[1..], n')
  }

  lemma OneStepMore(n: Net, s: Step, run: seq<Step>, n': Net)
    requires Enabled(n, s) && Runs(Apply(n, s), run, n')
    ensures Runs(n, [s] + run, n')
  {
    assert ([s] + run)[1..] == run;
  }

  /** Gateways that have started and are not connected yet. */
  predicate Initial(n: Net)
  {
    && n.conns == {} && n.greeting == {}
    && forall a :: a in n.nodes ==> n.nodes[a] == EmptyGateway
  }

  lemma StepKeepsNodes(n: Net, s: Step)
    requires Enabled(n, s)
    ensures Apply(n, s).nodes.Keys == n.nodes.Keys
  {
  }

  // ----- which connections are up -----

  /**
   A gateway has registered exactly the neighbours whose association message it has
   received, and its tables name only those.
   */
  ghost predicate WellFormed(n: Net)
  {
    && Symmetric(n)
    && forall a :: a in n.nodes ==> UpToDate(n, a)
  }

  ghost predicate Symmetric(n: Net)
  {
    && (forall a, b :: (a, b) in n.conns ==> a in n.nodes && b in n.nodes && a != b && (b, a) in n.conns)
    && n.greeting <= n.conns
  }

  ghost predicate UpToDate(n: Net, a: GatewayId)
    requires a in n.nodes
  {
    && (forall b :: b in n.nodes[a].links <==> (a, b) in n.conns && (b, a) !in n.greeting)
    && Connected(n.nodes[a])
  }

  lemma InitialWellFormed(n: Net)
    requires Initial(n)
    ensures WellFormed(n)
  {
  }

  /** What a gateway does on its own account changes no neighbour table and no connection. */
  lemma ActKeepsNeighbours(g: Gateway, s: LocalStep)
    ensures Act(g, s).subs == g.subs && Act(g, s).pulls == g.pulls && Act(g, s).links.Keys == g.links.Keys
  {
    match s
    case DoRegisterData(_, _, _) =>
    case DoUnregisterData(_, _, _) =>
    case DoRegisterPull(_, _, _) =>
    case DoUnregisterPull(_, _) =>
    case DoPush(_, _, _, _, _, _) =>
    case DoPull(_, _, _, _, _) =>
    case DoAnswer(_, _) =>
    case DoForget(_, _) =>
  }

  lemma ActKeepsConnected(g: Gateway, s: LocalStep)
    requires Connected(g)
    ensures Connected(Act(g, s)) && Act(g, s).links.Keys == g.links.Keys && Act(g, s).subs == g.subs
  {
    ActKeepsNeighbours(g, s);
    ConnectedSame(g, Act(g, s));
  }

  lemma ReceiveControlKeepsConnected(g: Gateway, from: GatewayId, c: Control)
    requires Connected(g) && from in g.links
    ensures Connected(ReceiveControl(g, from, c)) && ReceiveControl(g, from, c).links.Keys == g.links.Keys
  {
    var g' := ReceiveControl(g, from, c);
    assert g'.links.Keys == g.links.Keys;
    forall s | s in g'.subs ensures s.neighbour in g'.links { assert s in g.subs || s.neighbour == from; }
    forall e | e in g'.pulls ensures e.1 in g'.links { assert e in g.pulls || e.1 == from; }
  }

  lemma ReceiveDataKeepsConnected(g: Gateway, from: GatewayId, d: Data)
    requires Connected(g)
    ensures Connected(ReceiveData(g, from, d)) && ReceiveData(g, from, d).links.Keys == g.links.Keys
  {
    ConnectedSame(g, ReceiveData(g, from, d));
  }

  lemma TakeKeepsConnected(g: Gateway, to: GatewayId, i: nat)
    requires Connected(g) && to in g.links
    ensures g.links[to].control != [] ==>
      Connected(TakeControl(g, to)) && TakeControl(g, to).links.Keys == g.links.Keys
    ensures i < |g.links[to].data| ==>
      Connected(TakeData(g, to, i)) && TakeData(g, to, i).links.Keys == g.links.Keys
  {
  }

  /** Replacing the tables of one gateway changes nothing about who is connected. */
  lemma ReplaceGateway(n: Net, x: GatewayId, g: Gateway)
    requires WellFormed(n) && x in n.nodes
    requires Connected(g) && g.links.Keys == n.nodes[x].links.Keys
    ensures WellFormed(n.(nodes := n.nodes[x := g]))
  {
    var n' := n.(nodes := n.nodes[x := g]);
    forall a | a in n'.nodes ensures UpToDate(n', a) {
      assert UpToDate(n, a);
      assert n'.nodes[a].links.Keys == n.nodes[a].links.Keys;
      assert forall b :: b in n'.nodes[a].links <==> b in n'.nodes[a].links.Keys;
    }
  }

  lemma ConnectKeepsWellFormed(n: Net, a: GatewayId, b: GatewayId)
    requires WellFormed(n) && Enabled(n, Connect(a, b))
    ensures WellFormed(Apply(n, Connect(a, b)))
  {
    var n' := Apply(n, Connect(a, b));
    forall x | x in n'.nodes ensures UpToDate(n', x) {
      assert UpToDate(n, x);
    }
  }

  lemma RegisterKeepsConnected(g: Gateway, id: GatewayId)
    requires Connected(g)
    ensures Connected(RegisterConnection(g, id)) && RegisterConnection(g, id).links.Keys == g.links.Keys + {id}
  {
    var g' := RegisterConnection(g, id);
    assert g'.links.Keys == g.links.Keys + {id};
    forall s | s in g'.subs ensures s.neighbour in g'.links { assert s.neighbour in g.links.Keys; }
    forall e | e in g'.pulls ensures e.1 in g'.links { assert e.1 in g.links.Keys; }
  }

  lemma GreetedUpToDate(n: Net, from: GatewayId, to: GatewayId)
    requires WellFormed(n) && Enabled(n, Associate(from, to))
    ensures UpToDate(Apply(n, Associate(from, to)), to)
  {
    var n', g := Apply(n, Associate(from, to)), n.nodes[to];
    assert UpToDate(n, to);
    RegisterKeepsConnected(g, from);
    forall b ensures b in n'.nodes[to].links <==> (to, b) in n'.conns && (b, to) !in n'.greeting {
      assert b in n'.nodes[to].links <==> b in g.links.Keys + {from};
    }
  }

  lemma OthersUpToDate(n: Net, from: GatewayId, to: GatewayId, x: GatewayId)
    requires WellFormed(n) && Enabled(n, Associate(from, to)) && x in n.nodes && x != to
    ensures UpToDate(Apply(n, Associate(from, to)), x)
  {
    var n' := Apply(n, Associate(from, to));
    assert UpToDate(n, x) && n'.nodes[x] == n.nodes[x];
  }

  lemma AssociateKeepsWellFormed(n: Net, from: GatewayId, to: GatewayId)
    requires WellFormed(n) && Enabled(n, Associate(from, to))
    ensures WellFormed(Apply(n, Associate(from, to)))
  {
    var n' := Apply(n, Associate(from, to));
    GreetedUpToDate(n, from, to);
    forall x | x in n'.nodes ensures UpToDate(n', x) {
      if x != to { OthersUpToDate(n, from, to, x); }
    }
  }

  lemma DeliverControlKeepsWellFormed(n: Net, from: GatewayId, to: GatewayId)
    requires WellFormed(n) && Enabled(n, DeliverControl(from, to))
    ensures WellFormed(Apply(n, DeliverControl(from, to)))
  {
    assert UpToDate(n, from) && UpToDate(n, to);
    var gf, c := TakeControl(n.nodes[from], to), n.nodes[from].links[to].control[0];
    TakeKeepsConnected(n.nodes[from], to, 0);
    ReplaceGateway(n, from, gf);
    LinkedBack(n, from, to);
    ReceiveControlKeepsConnected(n.nodes[to], from, c);
    ReplaceGateway(n.(nodes := n.nodes[from := gf]), to, ReceiveControl(n.nodes[to], from, c));
  }

  lemma DeliverDataKeepsWellFormed(n: Net, from: GatewayId, to: GatewayId, i: nat)
    requires WellFormed(n) && Enabled(n, DeliverData(from, to, i))
    ensures WellFormed(Apply(n, DeliverData(from, to, i)))
  {
    assert UpToDate(n, from) && UpToDate(n, to);
    var gf, d := TakeData(n.nodes[from], to, i), n.nodes[from].links[to].data[i];
    TakeKeepsConnected(n.nodes[from], to, i);
    ReplaceGateway(n, from, gf);
    LinkedBack(n, from, to);
    ReceiveDataKeepsConnected(n.nodes[to], from, d);
    ReplaceGateway(n.(nodes := n.nodes[from := gf]), to, ReceiveData(n.nodes[to], from, d));
  }

  /** Whoever sends has been greeted by the receiver, too. */
  lemma LinkedBack(n: Net, from: GatewayId, to: GatewayId)
    requires WellFormed(n) && Open(n, from, to)
    ensures from in n.nodes[to].links
  {
    assert UpToDate(n, from) && UpToDate(n, to);
  }

  lemma StepKeepsWellFormed(n: Net, s: Step)
    requires WellFormed(n) && Enabled(n, s)
    ensures WellFormed(Apply(n, s))
  {
    match s
    case Perform(at, step) =>
      assert UpToDate(n, at);
      ActKeepsConnected(n.nodes[at], step);
      ReplaceGateway(n, at, Act(n.nodes[at], step));
    case Connect(a, b) => ConnectKeepsWellFormed(n, a, b);
    case Associate(from, to) => AssociateKeepsWellFormed(n, from, to);
    case DeliverControl(from, to) => DeliverControlKeepsWellFormed(n, from, to);
    case DeliverData(from, to, i) => DeliverDataKeepsWellFormed(n, from, to, i);
  }

  lemma {:induction false} RunKeepsWellFormed(n: Net, run: seq<Step>, n': Net)
    requires WellFormed(n) && Runs(n, run, n')
    ensures WellFormed(n')
    decreases run
  {
    if run != [] {
      StepKeepsWellFormed(n, run[0]);
      RunKeepsWellFormed(Apply(n, run[0]), run[1..], n');
    }
  }
}
