/**
 What registering and withdrawing do to the entries of a plugin, counted by type, plugin
 and scope, for one operation and over every run.
 */
module Registrations {
  import opened Sums
  import opened Topology
  import opened Tables
  import opened Network
  import opened Conservation

  ghost function IsEntry(topic: string, h: Handle, scope: OwnScope): LocalSub -> bool
  {
    (s: LocalSub) => s.topic == topic && s.handler == h && s.scope == scope
  }

  /** How many entries plugin `h` has for the type with this scope. */
  ghost function Entries(subs: seq<LocalSub>, topic: string, h: Handle, scope: OwnScope): nat
  {
    Count(subs, IsEntry(topic, h, scope))
  }

  /** Of the plugin's entries for the type the first has this scope. */
  ghost predicate FirstHasScope(subs: seq<LocalSub>, topic: string, h: Handle, scope: OwnScope)
  {
    exists i :: 0 <= i < |subs| && IsEntry(topic, h, scope)(subs[i])
      && forall j :: 0 <= j < i ==> subs[j].topic != topic || subs[j].handler != h
  }

  /** Withdrawing with `scope` takes an entry of scope `own`. */
  ghost predicate TakesEntry(subs: seq<LocalSub>, topic: string, h: Handle, scope: Scope, own: OwnScope)
  {
    if scope == All then FirstHasScope(subs, topic, h, own)
    else scope == own && Entries(subs, topic, h, own) > 0
  }

  // ----- one operation -----

  lemma OneMoreEntry(subs: seq<LocalSub>, topic: string, h: Handle, scope: OwnScope, t: string, k: Handle,
                     own: OwnScope)
    ensures Entries(subs + [LocalSub(topic, h, scope)], t, k, own) ==
            Entries(subs, t, k, own) + if t == topic && k == h && own == scope then 1 else 0
  {
    CountConcat(subs, [LocalSub(topic, h, scope)], IsEntry(t, k, own));
  }

  lemma NoEntry(subs: seq<LocalSub>, topic: string, h: Handle, scope: OwnScope)
    ensures Entries(subs, topic, h, scope) > 0 <==> exists i :: 0 <= i < |subs| && IsEntry(topic, h, scope)(subs[i])
  {
    CountPositive(subs, IsEntry(topic, h, scope));
    forall s | s in subs && IsEntry(topic, h, scope)(s)
      ensures exists i :: 0 <= i < |subs| && IsEntry(topic, h, scope)(subs[i])
    {
      var i :| 0 <= i < |subs| && subs[i] == s;
    }
  }

  /** The entry that is removed, if there is one, has the scope asked for or else is the first of its type. */
  lemma OneLessEntry(subs: seq<LocalSub>, topic: string, h: Handle, scope: Scope, t: string, k: Handle, own: OwnScope)
    ensures Entries(Without(subs, FirstMatch(subs, topic, scope, h)), t, k, own) ==
            Entries(subs, t, k, own) - if t == topic && k == h && TakesEntry(subs, topic, h, scope, own) then 1 else 0
  {
    var i := FirstMatch(subs, topic, scope, h);
    if i < |subs| { CountRemove(subs, i, IsEntry(t, k, own)); }
    if t == topic && k == h { TakenIs(subs, topic, h, scope, own); }
  }

  /** The first match is of the scope that is said to be taken. */
  lemma TakenIs(subs: seq<LocalSub>, topic: string, h: Handle, scope: Scope, own: OwnScope)
    ensures var i := FirstMatch(subs, topic, scope, h);
      TakesEntry(subs, topic, h, scope, own) <==> i < |subs| && IsEntry(topic, h, own)(subs[i])
  {
    var i := FirstMatch(subs, topic, scope, h);
    NoEntry(subs, topic, h, own);
    if scope != All && i < |subs| { assert subs[i].scope == scope; }
  }

  /** Withdrawing with one of the two scopes: one entry of that scope less, if there is one, and all others stay. */
  lemma WithdrawalTakes(g: Gateway, topic: string, scope: OwnScope, h: Handle, t: string, k: Handle, own: OwnScope)
    ensures Entries(UnregisterData(g, topic, scope, h).push, t, k, own) == Entries(g.push, t, k, own)
            - if t == topic && k == h && own == scope && Entries(g.push, topic, h, scope) > 0 then 1 else 0
  {
    OneLessEntry(g.push, topic, h, scope, t, k, own);
  }

  lemma SomeEntryIsFirst(subs: seq<LocalSub>, topic: string, h: Handle)
    ensures FirstHasScope(subs, topic, h, Global) ==> !FirstHasScope(subs, topic, h, Local)
    ensures Entries(subs, topic, h, Global) + Entries(subs, topic, h, Local) > 0 <==>
            FirstHasScope(subs, topic, h, Global) || FirstHasScope(subs, topic, h, Local)
  {
    NoEntry(subs, topic, h, Global);
    NoEntry(subs, topic, h, Local);
    var i := FirstMatch(subs, topic, All, h);
    if i < |subs| {
      assert IsEntry(topic, h, subs[i].scope)(subs[i]);
      assert FirstHasScope(subs, topic, h, subs[i].scope);
    }
  }

  /** Withdrawing whatever the scope takes one of the plugin's entries for the type, if it has any, and only one. */
  lemma WithdrawalOfAnyScopeTakesOne(g: Gateway, topic: string, h: Handle)
    ensures var subs, subs' := g.push, UnregisterData(g, topic, All, h).push;
            Entries(subs', topic, h, Global) + Entries(subs', topic, h, Local) ==
            Entries(subs, topic, h, Global) + Entries(subs, topic, h, Local)
            - if Entries(subs, topic, h, Global) + Entries(subs, topic, h, Local) > 0 then 1 else 0
    ensures forall t, k, own :: t != topic || k != h ==>
            Entries(UnregisterData(g, topic, All, h).push, t, k, own) == Entries(g.push, t, k, own)
  {
    OneLessEntry(g.push, topic, h, All, topic, h, Global);
    OneLessEntry(g.push, topic, h, All, topic, h, Local);
    SomeEntryIsFirst(g.push, topic, h);
    forall t, k, own | t != topic || k != h
      ensures Entries(UnregisterData(g, topic, All, h).push, t, k, own) == Entries(g.push, t, k, own)
    {
      OneLessEntry(g.push, topic, h, All, t, k, own);
    }
  }

  /**
   Neighbours are told exactly of the global entries that come, and of those for pushes that go:
   one message each, behind what is queued.
   */
  lemma ToldOfGlobalEntries(g: Gateway, s: LocalStep, k: GatewayId)
    requires k in g.links
    ensures k in Act(g, s).links
    ensures Act(g, s).links[k].control == g.links[k].control +
            match s {
              case DoRegisterData(topic, scope, _) => if scope == Global then [Subscribe(topic)] else []
              case DoUnregisterData(topic, scope, h) =>
                if TakesEntry(g.push, topic, h, scope, Global) then [Unsubscribe(topic)] else []
              case DoRegisterPull(topic, scope, _) => if scope == Global then [RegisterPull(topic)] else []
              case _ => []
            }
  {
    if s.DoUnregisterData? {
      var i := FirstMatch(g.push, s.topic, s.anyScope, s.h);
      NoEntry(g.push, s.topic, s.h, Global);
      if i < |g.push| { assert IsEntry(s.topic, s.h, g.push[i].scope)(g.push[i]); }
    }
  }

  /** A plugin that withdraws a local registration changes no gateway's demand and no queue. */
  lemma LocalWithdrawalSilent(n: Net, at: GatewayId, topic: string, h: Handle, y: GatewayId, t: string, a: GatewayId)
    requires at in n.nodes && y in n.nodes
    ensures var n' := Apply(n, Perform(at, DoUnregisterData(topic, Local, h)));
      && y in n'.nodes && n'.nodes[y].links == n.nodes[y].links
      && Demand(n'.nodes[y], t, a) == Demand(n.nodes[y], t, a)
  {
    var subs := n.nodes[at].push;
    var i := FirstMatch(subs, topic, Local, h);
    if i < |subs| { CountRemove(subs, i, IsGlobal(t)); }
  }

  // ----- runs -----

  ghost function RegistersAt(x: GatewayId, t: string, h: Handle, own: OwnScope): Step -> bool
  {
    (s: Step) => s == Perform(x, DoRegisterData(t, own, h))
  }

  ghost function RegistersPullAt(x: GatewayId, t: string, h: Handle, own: OwnScope): Step -> bool
  {
    (s: Step) => s == Perform(x, DoRegisterPull(t, own, h))
  }

  /** The step takes an entry of scope `own` that plugin `h` of `x` has for the type. */
  ghost predicate WithdrawsAt(n: Net, s: Step, x: GatewayId, t: string, h: Handle, own: OwnScope)
  {
    && s.Perform? && s.at == x && x in n.nodes && s.step.DoUnregisterData? && s.step.topic == t && s.step.h == h
    && TakesEntry(n.nodes[x].push, t, h, s.step.anyScope, own)
  }

  ghost predicate WithdrawsPullAt(n: Net, s: Step, x: GatewayId, t: string, h: Handle, own: OwnScope)
  {
    && s == Perform(x, DoUnregisterPull(t, h)) && x in n.nodes
    && FirstHasScope(n.nodes[x].pull, t, h, own)
  }

  /** How many steps of the run take such an entry. */
  ghost function Withdrawals(n: Net, run: seq<Step>, n': Net, x: GatewayId, t: string, h: Handle, own: OwnScope): nat
    requires Runs(n, run, n')
    decreases run
  {
    if run == [] then 0
    else (if WithdrawsAt(n, run[0], x, t, h, own) then 1 else 0)
         + Withdrawals(Apply(n, run[0]), run[1..], n', x, t, h, own)
  }

  ghost function PullWithdrawals(n: Net, run: seq<Step>, n': Net, x: GatewayId, t: string, h: Handle,
                                 own: OwnScope): nat
    requires Runs(n, run, n')
    decreases run
  {
    if run == [] then 0
    else (if WithdrawsPullAt(n, run[0], x, t, h, own) then 1 else 0)
         + PullWithdrawals(Apply(n, run[0]), run[1..], n', x, t, h, own)
  }

  lemma ActEntries(g: Gateway, s: LocalStep, t: string, h: Handle, own: OwnScope)
    ensures Entries(Act(g, s).push, t, h, own) == Entries(g.push, t, h, own)
            + (if s == DoRegisterData(t, own, h) then 1 else 0)
            - (if s.DoUnregisterData? && s.topic == t && s.h == h && TakesEntry(g.push, t, h, s.anyScope, own) then 1
               else 0)
    ensures Entries(Act(g, s).pull, t, h, own) == Entries(g.pull, t, h, own)
            + (if s == DoRegisterPull(t, own, h) then 1 else 0)
            - (if s == DoUnregisterPull(t, h) && FirstHasScope(g.pull, t, h, own) then 1 else 0)
  {
    match s
    case DoRegisterData(topic, scope, k) => OneMoreEntry(g.push, topic, k, scope, t, h, own);
    case DoUnregisterData(topic, scope, k) => OneLessEntry(g.push, topic, k, scope, t, h, own);
    case DoRegisterPull(topic, scope, k) => OneMoreEntry(g.pull, topic, k, scope, t, h, own);
    case DoUnregisterPull(topic, k) => OneLessEntry(g.pull, topic, k, All, t, h, own);
    case _ =>
  }

  lemma StepEntries(n: Net, s: Step, x: GatewayId, t: string, h: Handle, own: OwnScope)
    requires Enabled(n, s) && x in n.nodes
    ensures x in Apply(n, s).nodes
    ensures Entries(Apply(n, s).nodes[x].push, t, h, own) == Entries(n.nodes[x].push, t, h, own)
            + (if RegistersAt(x, t, h, own)(s) then 1 else 0) - (if WithdrawsAt(n, s, x, t, h, own) then 1 else 0)
    ensures Entries(Apply(n, s).nodes[x].pull, t, h, own) == Entries(n.nodes[x].pull, t, h, own)
            + (if RegistersPullAt(x, t, h, own)(s) then 1 else 0)
            - (if WithdrawsPullAt(n, s, x, t, h, own) then 1 else 0)
  {
    if s.Perform? { ActEntries(n.nodes[s.at], s.step, t, h, own); }
  }

  lemma {:induction false} RunEntries(n: Net, run: seq<Step>, n': Net, x: GatewayId, t: string, h: Handle,
                                      own: OwnScope)
    requires Runs(n, run, n') && x in n.nodes
    ensures x in n'.nodes
    ensures Entries(n'.nodes[x].push, t, h, own) == Entries(n.nodes[x].push, t, h, own)
            + Count(run, RegistersAt(x, t, h, own)) - Withdrawals(n, run, n', x, t, h, own)
    ensures Entries(n'.nodes[x].pull, t, h, own) == Entries(n.nodes[x].pull, t, h, own)
            + Count(run, RegistersPullAt(x, t, h, own)) - PullWithdrawals(n, run, n', x, t, h, own)
    decreases run
  {
    if run != [] {
      StepEntries(n, run[0], x, t, h, own);
      RunEntries(Apply(n, run[0]), run[1..], n', x, t, h, own);
    }
  }

  /**
   Over every run from the start, and for each type, plugin and scope: the entries are the
   registrations made with that scope less the withdrawals that took one of it.
   */
  lemma EntriesAreRegistrations(n0: Net, run: seq<Step>, n: Net, x: GatewayId, t: string, h: Handle, own: OwnScope)
    requires Initial(n0) && Runs(n0, run, n) && x in n0.nodes
    ensures x in n.nodes
    ensures Entries(n.nodes[x].push, t, h, own) ==
            Count(run, RegistersAt(x, t, h, own)) - Withdrawals(n0, run, n, x, t, h, own)
    ensures Entries(n.nodes[x].pull, t, h, own) ==
            Count(run, RegistersPullAt(x, t, h, own)) - PullWithdrawals(n0, run, n, x, t, h, own)
  {
    RunEntries(n0, run, n, x, t, h, own);
  }
}
