/** Reference-counted subscriptions of neighbour gateways. */
module SubscriptionStore {
  import opened Topology
  import opened Tables

  class SubscriptionDataStore {
    var subscriptions: seq<NeighbourSub>

    constructor ()
      ensures subscriptions == []
    {
      subscriptions := [];
    }

    /** The neighbours with a subscription to a prefix of the type. */
    method GetHandlersForType(topic: string) returns (matching: set<GatewayId>)
      ensures matching == NeighboursFor(subscriptions, topic)
      ensures forall k :: k in matching <==> exists s :: s in subscriptions && s.topic <= topic && s.neighbour == k
    {
      matching := {};
      for i := 0 to |subscriptions|
        invariant matching == NeighboursFor(subscriptions[..i], topic)
      {
        assert subscriptions[..i + 1] == subscriptions[..i] + [subscriptions[i]];
        if subscriptions[i].topic <= topic {
          matching := matching + {subscriptions[i].neighbour};
        }
      }
      assert subscriptions[..|subscriptions|] == subscriptions;
    }

    method Subscribe(topic: string, neighbour: GatewayId)
      modifies this
      ensures subscriptions == old(subscriptions) + [NeighbourSub(topic, neighbour)]
    {
      subscriptions := subscriptions + [NeighbourSub(topic, neighbour)];
    }

    /** Drops one reference; a subscription that is not there is ignored. */
    method Unsubscribe(topic: string, neighbour: GatewayId)
      modifies this
      ensures subscriptions ==
              Without(old(subscriptions), IndexOf(old(subscriptions), NeighbourSub(topic, neighbour)))
    {
      var i := 0;
      while i < |subscriptions|
        invariant 0 <= i <= |subscriptions|
        invariant forall j :: 0 <= j < i ==> subscriptions[j] != NeighbourSub(topic, neighbour)
        invariant subscriptions == old(subscriptions)
      {
        if subscriptions[i].topic == topic && subscriptions[i].neighbour == neighbour {
          subscriptions := subscriptions[..i] + subscriptions[i + 1..];
          return;
        }
        i := i + 1;
      }
    }
  }
}

/** Reference counts of pull interests, by topic and neighbour. */
module PullTable {
  import opened Topology
  import opened Tables

  datatype PullEntry = PullEntry(topic: string, neighbour: GatewayId, references: nat)

  predicate IsFor(e: PullEntry, topic: string, neighbour: GatewayId)
  {
    e.topic == topic && e.neighbour == neighbour
  }

  /** The registrations that the reference counts stand for. */
  ghost function Registrations(s: seq<PullEntry>): multiset<(string, GatewayId)>
  {
    if s == [] then multiset{} else
      multiset{}[(s[0].topic, s[0].neighbour) := s[0].references] + Registrations(s[1..])
  }

  ghost predicate OneEntryEach(s: seq<PullEntry>)
  {
    && (forall i, j :: 0 <= i < j < |s| ==> !IsFor(s[j], s[i].topic, s[i].neighbour))
    && (forall i :: 0 <= i < |s| ==> s[i].references > 0)
  }

  ghost predicate Mentions(s: seq<PullEntry>, topic: string, neighbour: GatewayId)
  {
    exists e :: e in s && IsFor(e, topic, neighbour)
  }

  lemma {:induction false} RegistrationsConcat(s: seq<PullEntry>, t: seq<PullEntry>)
    ensures Registrations(s + t) == Registrations(s) + Registrations(t)
  {
    if s == [] {
      assert s + t == t;
    } else {
      assert (s + t)[1..] == s[1..] + t;
      RegistrationsConcat(s[1..], t);
    }
  }

  lemma RegistrationsSplit(s: seq<PullEntry>, i: nat)
    requires i < |s|
    ensures Registrations(s) ==
            Registrations(s[..i])
            + multiset{}[(s[i].topic, s[i].neighbour) := s[i].references]
            + Registrations(s[i + 1..])
  {
    assert s == s[..i] + s[i..];
    RegistrationsConcat(s[..i], s[i..]);
  }

  /** A pair has an entry exactly when it has outstanding registrations. */
  lemma {:induction false} EntryIffRegistered(s: seq<PullEntry>, topic: string, neighbour: GatewayId)
    requires OneEntryEach(s)
    ensures Mentions(s, topic, neighbour) <==> Registrations(s)[(topic, neighbour)] > 0
  {
    if s != [] {
      EntryIffRegistered(s[1..], topic, neighbour);
      assert s == [s[0]] + s[1..];
      assert s[0] in s;
    }
  }

  /** The reference count of an entry is the number of its outstanding registrations. */
  lemma {:induction false} ReferencesCount(s: seq<PullEntry>, i: nat)
    requires OneEntryEach(s) && i < |s|
    ensures Registrations(s)[(s[i].topic, s[i].neighbour)] == s[i].references
  {
    if i == 0 {
      EntryIffRegistered(s[1..], s[0].topic, s[0].neighbour);
    } else {
      ReferencesCount(s[1..], i - 1);
      assert !IsFor(s[i], s[0].topic, s[0].neighbour);
    }
  }

  ghost function EntryNeighbours(s: seq<PullEntry>, topic: string): set<GatewayId>
  {
    set e | e in s && e.topic == topic :: e.neighbour
  }

  /** The table names exactly the neighbours that are registered for a topic. */
  lemma NeighboursRegistered(s: seq<PullEntry>, topic: string)
    requires OneEntryEach(s)
    ensures EntryNeighbours(s, topic) == PullNeighbours(Registrations(s), topic)
  {
    forall k ensures k in EntryNeighbours(s, topic) <==> k in PullNeighbours(Registrations(s), topic) {
      EntryIffRegistered(s, topic, k);
      assert (topic, k) in Registrations(s) <==> k in PullNeighbours(Registrations(s), topic);
      assert Mentions(s, topic, k) <==> k in EntryNeighbours(s, topic);
    }
  }

  /** A scan meets each neighbour once. */
  lemma NextEntry(s: seq<PullEntry>, i: nat, topic: string)
    requires OneEntryEach(s) && i < |s|
    ensures EntryNeighbours(s[..i + 1], topic) ==
            EntryNeighbours(s[..i], topic) + (if s[i].topic == topic then {s[i].neighbour} else {})
    ensures s[i].topic == topic ==> s[i].neighbour !in EntryNeighbours(s[..i], topic)
  {
    assert s[..i + 1] == s[..i] + [s[i]];
  }

  lemma ChangeReferences(s: seq<PullEntry>, i: nat, n: nat)
    requires OneEntryEach(s) && i < |s| && n > 0
    ensures OneEntryEach(s[i := s[i].(references := n)])
    ensures Registrations(s[i := s[i].(references := n)]) ==
            Registrations(s)[(s[i].topic, s[i].neighbour) := n]
  {
    var s' := s[i := s[i].(references := n)];
    RegistrationsSplit(s, i);
    RegistrationsSplit(s', i);
    assert s'[..i] == s[..i] && s'[i + 1..] == s[i + 1..];
    ReferencesCount(s, i);
    ReferencesCount(s', i);
  }

  lemma WithoutAt(s: seq<PullEntry>, i: nat, j: nat)
    requires i < |s| && j < |s| - 1
    ensures (s[..i] + s[i + 1..])[j] == s[if j < i then j else j + 1]
  {}

  lemma RemoveKeepsOneEach(s: seq<PullEntry>, i: nat)
    requires OneEntryEach(s) && i < |s|
    ensures OneEntryEach(s[..i] + s[i + 1..])
  {
    var s' := s[..i] + s[i + 1..];
    forall j | 0 <= j < |s'| ensures s'[j].references > 0 { WithoutAt(s, i, j); }
    forall j, k | 0 <= j < k < |s'| ensures !IsFor(s'[k], s'[j].topic, s'[j].neighbour) {
      WithoutAt(s, i, j);
      WithoutAt(s, i, k);
    }
  }

  lemma RemoveEntry(s: seq<PullEntry>, i: nat)
    requires OneEntryEach(s) && i < |s|
    ensures OneEntryEach(s[..i] + s[i + 1..])
    ensures Registrations(s[..i] + s[i + 1..]) ==
            Registrations(s)[(s[i].topic, s[i].neighbour) := 0]
  {
    RemoveKeepsOneEach(s, i);
    RegistrationsSplit(s, i);
    RegistrationsConcat(s[..i], s[i + 1..]);
    ReferencesCount(s, i);
  }

  lemma OneMoreOf<T>(m: multiset<T>, x: T)
    ensures m[x := m[x] + 1] == m + multiset{x}
  {}

  lemma OneLessOf<T>(m: multiset<T>, x: T)
    requires x in m
    ensures m[x := m[x] - 1] == m - multiset{x}
  {}

  /** One more reference is one more registration. */
  lemma AddReference(s: seq<PullEntry>, i: nat)
    requires OneEntryEach(s) && i < |s|
    ensures OneEntryEach(s[i := s[i].(references := s[i].references + 1)])
    ensures Registrations(s[i := s[i].(references := s[i].references + 1)])
         == Registrations(s) + multiset{(s[i].topic, s[i].neighbour)}
  {
    ReferencesCount(s, i);
    OneMoreOf(Registrations(s), (s[i].topic, s[i].neighbour));
    ChangeReferences(s, i, s[i].references + 1);
  }

  /** One less; an entry whose last reference goes is removed. */
  ghost function Dropped(s: seq<PullEntry>, i: nat): seq<PullEntry>
    requires i < |s| && s[i].references > 0
  {
    if s[i].references == 1 then s[..i] + s[i + 1..] else s[i := s[i].(references := s[i].references - 1)]
  }

  lemma DropReference(s: seq<PullEntry>, i: nat)
    requires OneEntryEach(s) && i < |s|
    ensures OneEntryEach(Dropped(s, i))
    ensures Registrations(Dropped(s, i)) == Registrations(s) - multiset{(s[i].topic, s[i].neighbour)}
    ensures (s[i].topic, s[i].neighbour) in Registrations(s)
  {
    ReferencesCount(s, i);
    OneLessOf(Registrations(s), (s[i].topic, s[i].neighbour));
    if s[i].references == 1 { RemoveEntry(s, i); } else { ChangeReferences(s, i, s[i].references - 1); }
  }

  /** Without an entry there is nothing to withdraw. */
  lemma NothingToDrop(s: seq<PullEntry>, topic: string, neighbour: GatewayId)
    requires OneEntryEach(s) && forall i :: 0 <= i < |s| ==> !IsFor(s[i], topic, neighbour)
    ensures (topic, neighbour) !in Registrations(s)
    ensures Registrations(s) - multiset{(topic, neighbour)} == Registrations(s)
  {
    EntryIffRegistered(s, topic, neighbour);
  }
}

/** One gateway: the tables that its plugin and neighbour connections share. */
module Core {
  import opened Topology
  import opened Tables
  import opened SubscriptionStore
  import opened PullTable

  class GatewayCore {
    var pushHandlers: seq<LocalSub>
    var pullHandlers: seq<LocalSub>
    var plugins: map<string, Handle>
    const crossGatewaySubscriptions: SubscriptionDataStore
    var crossGatewayPullRequestHandlers: seq<PullEntry>
    var cgPullRequestReturnIds: map<string, GatewayId>
    /** What is queued on the connection registered under each id. */
    var crossGatewayHandlers: map<GatewayId, Link>
    /** What has been queued on plugin connections. */
    var delivered: multiset<Delivery>

    ghost function State(): Gateway
      reads this, crossGatewaySubscriptions
    {
      Gateway(pushHandlers, pullHandlers, plugins, crossGatewaySubscriptions.subscriptions,
              Registrations(crossGatewayPullRequestHandlers), cgPullRequestReturnIds,
              crossGatewayHandlers, delivered)
    }

    ghost predicate Valid()
      reads this, crossGatewaySubscriptions
    {
      OneEntryEach(crossGatewayPullRequestHandlers) && Connected(State())
    }

    constructor ()
      ensures Valid() && fresh(crossGatewaySubscriptions) && State() == EmptyGateway
    {
      pushHandlers, pullHandlers, plugins := [], [], map[];
      crossGatewayPullRequestHandlers, cgPullRequestReturnIds := [], map[];
      crossGatewayHandlers, delivered := map[], multiset{};
      crossGatewaySubscriptions := new SubscriptionDataStore();
    }

    // ----- queueing -----

    method SendToAllExcept(except: set<GatewayId>, c: Control)
      modifies this`crossGatewayHandlers
      ensures State() == old(State()).(links := Broadcast(old(crossGatewayHandlers), except, c))
    {
      var todo := crossGatewayHandlers.Keys;
      while todo != {}
        invariant crossGatewayHandlers.Keys == old(crossGatewayHandlers).Keys
        invariant todo <= crossGatewayHandlers.Keys
        invariant forall k :: k in todo ==> crossGatewayHandlers[k] == old(crossGatewayHandlers)[k]
        invariant forall k :: k in crossGatewayHandlers && k !in todo ==>
          crossGatewayHandlers[k] == Broadcast(old(crossGatewayHandlers), except, c)[k]
      {
        var k :| k in todo;
        if k !in except {
          var link := crossGatewayHandlers[k];
          crossGatewayHandlers := crossGatewayHandlers[k := link.(control := link.control + [c])];
        }
        todo := todo - {k};
      }
    }

    method SendData(targets: set<GatewayId>, d: Data)
      requires targets <= crossGatewayHandlers.Keys
      modifies this`crossGatewayHandlers
      ensures State() == old(State()).(links := SendTo(old(crossGatewayHandlers), targets, d))
    {
      var todo := targets;
      while todo != {}
        invariant todo <= targets
        invariant crossGatewayHandlers.Keys == old(crossGatewayHandlers).Keys
        invariant forall k :: k in crossGatewayHandlers ==>
          crossGatewayHandlers[k] ==
          if k in todo then old(crossGatewayHandlers)[k] else SendTo(old(crossGatewayHandlers), targets, d)[k]
      {
        var k :| k in todo;
        var link := crossGatewayHandlers[k];
        crossGatewayHandlers := crossGatewayHandlers[k := link.(data := link.data + [d])];
        todo := todo - {k};
      }
    }

    method DeliverTo(handlers: set<Handle>, d: Data)
      modifies this`delivered
      ensures State() == old(State()).(delivered := old(delivered) + Deliveries(handlers, d))
    {
      var todo := handlers;
      while todo != {}
        invariant todo <= handlers
        invariant delivered == old(delivered) + Deliveries(handlers - todo, d)
      {
        var h :| h in todo;
        delivered := delivered + multiset{Delivery(h, d)};
        OneMore(handlers - todo, h, d);
        assert handlers - (todo - {h}) == (handlers - todo) + {h};
        todo := todo - {h};
      }
      assert handlers - {} == handlers;
    }

    static lemma OneMore(hs: set<Handle>, h: Handle, d: Data)
      requires h !in hs
      ensures Deliveries(hs + {h}, d) == Deliveries(hs, d) + multiset{Delivery(h, d)}
    {
      assert (set k | k in hs + {h} :: Delivery(k, d)) == (set k | k in hs :: Delivery(k, d)) + {Delivery(h, d)};
    }

    // ----- local plugins -----

    method RegisterDataInterest(topic: string, scope: OwnScope, h: Handle)
      requires Valid()
      modifies this
      ensures Valid() && State() == RegisterData(old(State()), topic, scope, h)
    {
      pushHandlers := pushHandlers + [LocalSub(topic, h, scope)];
      if scope == Global {
        SendToAllExcept({}, Subscribe(topic));
      }
    }

    method UnregisterDataInterest(topic: string, scope: Scope, h: Handle) returns (found: bool)
      requires Valid()
      modifies this
      ensures Valid() && State() == UnregisterData(old(State()), topic, scope, h)
      ensures found <==> exists s :: s in old(pushHandlers) && s.topic == topic && s.handler == h
                                     && (scope == All || s.scope == scope)
    {
      found := false;
      var foundScope := All;
      var i := 0;
      while i < |pushHandlers|
        invariant 0 <= i <= |pushHandlers|
        invariant forall j :: 0 <= j < i ==> !Matches(pushHandlers[j], topic, scope, h)
        invariant !found && pushHandlers == old(pushHandlers)
        invariant State() == old(State())
      {
        if Matches(pushHandlers[i], topic, scope, h) {
          foundScope := pushHandlers[i].scope;
          pushHandlers := pushHandlers[..i] + pushHandlers[i + 1..];
          found := true;
          break;
        }
        i := i + 1;
      }
      assert i == FirstMatch(old(pushHandlers), topic, scope, h);
      if found && foundScope == Global {
        SendToAllExcept({}, Unsubscribe(topic));
      }
    }

    method RegisterPullInterest(topic: string, scope: OwnScope, h: Handle)
      requires Valid()
      modifies this
      ensures Valid() && State() == Tables.RegisterPullInterest(old(State()), topic, scope, h)
    {
      pullHandlers := pullHandlers + [LocalSub(topic, h, scope)];
      if scope == Global {
        SendToAllExcept({}, RegisterPull(topic));
      }
    }

    /** The scope found is never taken over from the entry, so nothing is sent. */
    method UnregisterPullInterest(topic: string, h: Handle) returns (found: bool)
      requires Valid()
      modifies this`pullHandlers
      ensures Valid() && State() == Tables.UnregisterPullInterest(old(State()), topic, h)
      ensures found <==> exists s :: s in old(pullHandlers) && s.topic == topic && s.handler == h
    {
      found := false;
      var i := 0;
      while i < |pullHandlers|
        invariant 0 <= i <= |pullHandlers|
        invariant forall j :: 0 <= j < i ==> !Matches(pullHandlers[j], topic, All, h)
        invariant !found && pullHandlers == old(pullHandlers)
      {
        if Matches(pullHandlers[i], topic, All, h) {
          pullHandlers := pullHandlers[..i] + pullHandlers[i + 1..];
          found := true;
          break;
        }
        i := i + 1;
      }
      assert i == FirstMatch(old(pullHandlers), topic, All, h);
    }

    method GetPushHandlersForType(topic: string) returns (matching: set<Handle>)
      ensures matching == MatchingHandlers(pushHandlers, topic)
      ensures forall h :: h in matching <==> exists s :: s in pushHandlers && s.topic <= topic && s.handler == h
    {
      matching := {};
      for i := 0 to |pushHandlers|
        invariant matching == MatchingHandlers(pushHandlers[..i], topic)
      {
        assert pushHandlers[..i + 1] == pushHandlers[..i] + [pushHandlers[i]];
        if pushHandlers[i].topic <= topic {
          matching := matching + {pushHandlers[i].handler};
        }
      }
      assert pushHandlers[..|pushHandlers|] == pushHandlers;
    }

    method PushData(sender: Handle, topic: string, body: string, device: string, scope: OwnScope, ack: bool)
      requires Valid()
      modifies this
      ensures Valid() && State() == PushLocal(old(State()), sender, topic, body, device, scope, ack)
    {
      PushKeepsConnected(State(), sender, topic, body, device, scope, ack);
      var d := Push(topic, body);
      var handlers := GetPushHandlersForType(topic);
      DeliverTo(handlers - {sender}, d);
      if ack {
        plugins := plugins[device := sender];
      }
      if scope == Global {
        var neighbours := crossGatewaySubscriptions.GetHandlersForType(topic);
        SendData(neighbours, d);
      }
    }

    static lemma PushKeepsConnected(g: Gateway, sender: Handle, topic: string, body: string,
                                    device: string, scope: OwnScope, ack: bool)
      requires Connected(g)
      ensures Connected(PushLocal(g, sender, topic, body, device, scope, ack))
    {
      ConnectedSame(g, PushLocal(g, sender, topic, body, device, scope, ack));
    }

    static lemma NextDelivery(done: multiset<Delivery>, s: seq<LocalSub>, i: nat, topic: string, sender: set<Handle>,
                              d: Data)
      requires i < |s|
      ensures done + PullDeliveries(s[i..], topic, sender, d) ==
              (if s[i].topic == topic && s[i].handler !in sender then done + multiset{Delivery(s[i].handler, d)}
               else done)
              + PullDeliveries(s[i + 1..], topic, sender, d)
    {
      assert s[i..][1..] == s[i + 1..];
    }

    /** Hands a pull request to every registration for its topic that `sender` did not make. */
    method DeliverPullRequest(topic: string, sender: set<Handle>, d: Data)
      modifies this`delivered
      ensures delivered == old(delivered) + PullDeliveries(pullHandlers, topic, sender, d)
    {
      var i := 0;
      while i < |pullHandlers|
        invariant 0 <= i <= |pullHandlers|
        invariant delivered + PullDeliveries(pullHandlers[i..], topic, sender, d)
               == old(delivered) + PullDeliveries(pullHandlers, topic, sender, d)
      {
        NextDelivery(delivered, pullHandlers, i, topic, sender, d);
        if pullHandlers[i].topic == topic && pullHandlers[i].handler !in sender {
          delivered := delivered + multiset{Delivery(pullHandlers[i].handler, d)};
        }
        i := i + 1;
      }
    }

    /** Sends to each neighbour with an entry for the topic; no neighbour has two. */
    method ForwardPullRequest(topic: string, except: set<GatewayId>, d: Data)
      requires Valid()
      modifies this`crossGatewayHandlers
      ensures crossGatewayHandlers ==
              SendTo(old(crossGatewayHandlers), PullNeighbours(old(State()).pulls, topic) - except, d)
    {
      var s := crossGatewayPullRequestHandlers;
      for i := 0 to |s|
        invariant s == crossGatewayPullRequestHandlers
        invariant crossGatewayHandlers ==
                  SendTo(old(crossGatewayHandlers), EntryNeighbours(s[..i], topic) - except, d)
      {
        var k := s[i].neighbour;
        ghost var sent := EntryNeighbours(s[..i], topic) - except;
        NextEntry(s, i, topic);
        if s[i].topic == topic && k !in except {
          NeighboursRegistered(s, topic);
          assert k in EntryNeighbours(s, topic);
          SendOneMore(old(crossGatewayHandlers), sent, k, d);
          assert EntryNeighbours(s[..i + 1], topic) - except == sent + {k};
          var link := crossGatewayHandlers[k];
          crossGatewayHandlers := crossGatewayHandlers[k := link.(data := link.data + [d])];
        } else {
          assert EntryNeighbours(s[..i + 1], topic) - except == sent;
        }
      }
      assert s[..|s|] == s;
      NeighboursRegistered(s, topic);
    }

    static lemma SendOneMore(links: map<GatewayId, Link>, sent: set<GatewayId>, k: GatewayId, d: Data)
      requires k in links && k !in sent
      ensures SendTo(links, sent + {k}, d) ==
              SendTo(links, sent, d)[k := links[k].(data := links[k].data + [d])]
    {
    }

    method PullRequest(sender: Handle, pid: string, topic: string, body: string, scope: OwnScope)
      requires Valid()
      modifies this
      ensures Valid() && State() == PullLocal(old(State()), sender, pid, topic, body, scope)
    {
      var d := Data.PullRequest(pid, topic, body);
      DeliverPullRequest(topic, {sender}, d);
      plugins := plugins[pid := sender];
      ConnectedSame(old(State()), State());
      if scope == Global {
        ForwardPullRequest(topic, {}, d);
        assert PullNeighbours(old(State()).pulls, topic) - {} == PullNeighbours(old(State()).pulls, topic);
        ConnectedSame(old(State()), State());
      }
    }

    method PullResponse(pid: string, body: string) returns (routed: bool)
      requires Valid()
      modifies this
      ensures Valid() && State() == Answer(old(State()), pid, body, {})
      ensures routed <==> pid in old(plugins) || pid in old(cgPullRequestReturnIds)
    {
      var d := Data.PullResponse(pid, body);
      if pid in plugins {
        delivered := delivered + multiset{Delivery(plugins[pid], d)};
        return true;
      }
      routed := pid in cgPullRequestReturnIds;
      if routed {
        if cgPullRequestReturnIds[pid] in crossGatewayHandlers {
          SendData({cgPullRequestReturnIds[pid]}, d);
        }
      }
    }

    method UnregisterPullResponsePluginId(pid: string, h: Handle)
      requires Valid()
      modifies this`plugins
      ensures Valid() && State() == ForgetPlugin(old(State()), pid, h)
    {
      if pid in plugins {
        if plugins[pid] == h {
          plugins := plugins - {pid};
        }
      }
    }

    // ----- neighbour connections -----

    static lemma LocalReplayOn(out: seq<Control>, s: seq<LocalSub>, i: nat)
      requires i < |s|
      ensures out + LocalReplay(s[i..]) ==
              (if s[i].scope == Global then out + [Subscribe(s[i].topic)] else out) + LocalReplay(s[i + 1..])
    {
      assert s[i..][1..] == s[i + 1..];
      var rest := LocalReplay(s[i + 1..]);
      assert [] + rest == rest;
      assert out + ([Subscribe(s[i].topic)] + rest) == (out + [Subscribe(s[i].topic)]) + rest;
    }

    method ReplayLocal() returns (out: seq<Control>)
      ensures out == LocalReplay(pushHandlers)
    {
      var subs := pushHandlers;
      out := [];
      var i := 0;
      assert out + LocalReplay(subs[0..]) == LocalReplay(subs) by { assert subs[0..] == subs; }
      while i < |subs|
        invariant 0 <= i <= |subs|
        invariant out + LocalReplay(subs[i..]) == LocalReplay(subs)
      {
        LocalReplayOn(out, subs, i);
        if subs[i].scope == Global {
          out := out + [Subscribe(subs[i].topic)];
        }
        i := i + 1;
      }
      assert subs[i..] == [] && out + [] == out;
    }

    static lemma NeighbourReplayOn(out: seq<Control>, s: seq<NeighbourSub>, i: nat, id: GatewayId)
      requires i < |s|
      ensures out + NeighbourReplay(s[i..], id) ==
              (if s[i].neighbour != id then out + [Subscribe(s[i].topic)] else out) + NeighbourReplay(s[i + 1..], id)
    {
      assert s[i..][1..] == s[i + 1..];
      var rest := NeighbourReplay(s[i + 1..], id);
      assert [] + rest == rest;
      assert out + ([Subscribe(s[i].topic)] + rest) == (out + [Subscribe(s[i].topic)]) + rest;
    }

    method ReplayNeighbours(id: GatewayId) returns (out: seq<Control>)
      ensures out == NeighbourReplay(crossGatewaySubscriptions.subscriptions, id)
    {
      var subs := crossGatewaySubscriptions.subscriptions;
      out := [];
      var i := 0;
      assert out + NeighbourReplay(subs[0..], id) == NeighbourReplay(subs, id) by { assert subs[0..] == subs; }
      while i < |subs|
        invariant 0 <= i <= |subs|
        invariant out + NeighbourReplay(subs[i..], id) == NeighbourReplay(subs, id)
      {
        NeighbourReplayOn(out, subs, i, id);
        if subs[i].neighbour != id {
          out := out + [Subscribe(subs[i].topic)];
        }
        i := i + 1;
      }
      assert subs[i..] == [] && out + [] == out;
    }

    method RegisterCrossGatewayConnection(id: GatewayId)
      requires Valid()
      modifies this`crossGatewayHandlers
      ensures Valid() && State() == RegisterConnection(old(State()), id)
    {
      var own := ReplayLocal();
      var others := ReplayNeighbours(id);
      crossGatewayHandlers := crossGatewayHandlers[id := Link(own + others, [])];
      ConnectedSame(old(State()), State());
    }

    /**
     Whether it names that neighbour or not, the rest of the state stays; only if not, every forward
     still finds a link.
     */
    method UnregisterCrossGatewayConnection(id: GatewayId)
      requires Valid()
      modifies this`crossGatewayHandlers
      ensures State() == UnregisterConnection(old(State()), id)
      ensures Valid() <==>
        && (forall s :: s in crossGatewaySubscriptions.subscriptions ==> s.neighbour != id)
        && (forall e :: e in State().pulls ==> e.1 != id)
    {
      crossGatewayHandlers := crossGatewayHandlers - {id};
    }

    /** From an origin without a link the entry is made all the same, but then a forward does not find one. */
    method SubscribeCrossGateway(topic: string, origin: GatewayId)
      requires Valid()
      modifies this`crossGatewayHandlers, crossGatewaySubscriptions
      ensures State() == ReceiveControl(old(State()), origin, Subscribe(topic))
      ensures Valid() <==> origin in old(crossGatewayHandlers)
    {
      var c := Subscribe(topic);
      ReceivedConnectedIff(State(), origin, c);
      crossGatewaySubscriptions.Subscribe(topic, origin);
      SendToAllExcept({origin}, c);
    }

    /** Answers false whether or not there was a subscription. */
    method UnsubscribeCrossGateway(topic: string, origin: GatewayId) returns (result: bool)
      requires Valid()
      modifies this`crossGatewayHandlers, crossGatewaySubscriptions
      ensures Valid() && State() == ReceiveControl(old(State()), origin, Unsubscribe(topic))
      ensures !result
    {
      SendToAllExcept({origin}, Unsubscribe(topic));
      crossGatewaySubscriptions.Unsubscribe(topic, origin);
      return false;
    }

    method RegisterPullInterestCrossGateway(topic: string, origin: GatewayId)
      requires Valid()
      modifies this`crossGatewayHandlers, this`crossGatewayPullRequestHandlers
      ensures State() == ReceiveControl(old(State()), origin, RegisterPull(topic))
      ensures Valid() <==> origin in old(crossGatewayHandlers)
    {
      ReceivedConnectedIff(State(), origin, RegisterPull(topic));
      CountRegistration(topic, origin);
      SendToAllExcept({origin}, RegisterPull(topic));
    }

    static lemma ReceivedConnectedIff(g: Gateway, origin: GatewayId, c: Control)
      requires Connected(g) && (c.Subscribe? || c.RegisterPull?)
      ensures Connected(ReceiveControl(g, origin, c)) <==> origin in g.links
    {
      var g' := ReceiveControl(g, origin, c);
      assert g'.links.Keys == g.links.Keys;
      if c.Subscribe? {
        assert NeighbourSub(c.topic, origin) in g'.subs;
      } else {
        assert (c.topic, origin) in g'.pulls;
      }
      if origin in g.links {
        forall s | s in g'.subs ensures s.neighbour in g'.links.Keys { assert s in g.subs || s.neighbour == origin; }
        forall e | e in g'.pulls ensures e.1 in g'.links.Keys { assert e in g.pulls || e.1 == origin; }
      }
    }

    method CountRegistration(topic: string, origin: GatewayId)
      requires OneEntryEach(crossGatewayPullRequestHandlers)
      modifies this`crossGatewayPullRequestHandlers
      ensures OneEntryEach(crossGatewayPullRequestHandlers)
      ensures Registrations(crossGatewayPullRequestHandlers) ==
              Registrations(old(crossGatewayPullRequestHandlers)) + multiset{(topic, origin)}
    {
      var found := false;
      ghost var was := crossGatewayPullRequestHandlers;
      ghost var at := 0;
      var i := 0;
      while i < |crossGatewayPullRequestHandlers|
        invariant 0 <= i <= |crossGatewayPullRequestHandlers| == |was|
        invariant if found then
            at < i && IsFor(was[at], topic, origin)
            && crossGatewayPullRequestHandlers == was[at := was[at].(references := was[at].references + 1)]
          else crossGatewayPullRequestHandlers == was && forall j :: 0 <= j < i ==> !IsFor(was[j], topic, origin)
      {
        var s := crossGatewayPullRequestHandlers;
        if IsFor(s[i], topic, origin) {
          assert !found;
          crossGatewayPullRequestHandlers := s[i := s[i].(references := s[i].references + 1)];
          found, at := true, i;
        }
        i := i + 1;
      }
      if found {
        AddReference(was, at);
      } else {
        RegistrationsConcat(was, [PullEntry(topic, origin, 1)]);
        crossGatewayPullRequestHandlers := crossGatewayPullRequestHandlers + [PullEntry(topic, origin, 1)];
      }
    }

    method UnregisterPullInterestCrossGateway(topic: string, origin: GatewayId) returns (found: bool)
      requires Valid()
      modifies this`crossGatewayHandlers, this`crossGatewayPullRequestHandlers
      ensures Valid() && State() == ReceiveControl(old(State()), origin, UnregisterPull(topic))
      ensures found <==> (topic, origin) in old(State()).pulls
    {
      WithdrawalKeepsConnected(State(), topic, origin);
      SendToAllExcept({origin}, UnregisterPull(topic));
      found := DropRegistration(topic, origin);
    }

    static lemma WithdrawalKeepsConnected(g: Gateway, topic: string, origin: GatewayId)
      requires Connected(g)
      ensures Connected(ReceiveControl(g, origin, UnregisterPull(topic)))
    {
      ConnectedSame(g, ReceiveControl(g, origin, UnregisterPull(topic)));
    }

    method DropRegistration(topic: string, origin: GatewayId) returns (found: bool)
      requires OneEntryEach(crossGatewayPullRequestHandlers)
      modifies this`crossGatewayPullRequestHandlers
      ensures OneEntryEach(crossGatewayPullRequestHandlers)
      ensures State() == old(State()).(pulls := old(State()).pulls - multiset{(topic, origin)})
      ensures found <==> (topic, origin) in old(State()).pulls
    {
      var s := crossGatewayPullRequestHandlers;
      var i := 0;
      while i < |s|
        invariant 0 <= i <= |s| && s == crossGatewayPullRequestHandlers
        invariant forall j :: 0 <= j < i ==> !IsFor(s[j], topic, origin)
      {
        if IsFor(s[i], topic, origin) {
          DropReference(s, i);
          if s[i].references == 1 {
            crossGatewayPullRequestHandlers := s[..i] + s[i + 1..];
          } else {
            crossGatewayPullRequestHandlers := s[i := s[i].(references := s[i].references - 1)];
          }
          assert crossGatewayPullRequestHandlers == Dropped(s, i);
          return true;
        }
        i := i + 1;
      }
      NothingToDrop(s, topic, origin);
      return false;
    }

    /** Each plugin with a matching subscription, and the widest scope of its matching ones. */
    static ghost predicate Widest(scopeMap: map<Handle, OwnScope>, s: seq<LocalSub>, topic: string)
    {
      && scopeMap.Keys == MatchingHandlers(s, topic)
      && forall h :: h in scopeMap ==> (scopeMap[h] == Global <==> h in GlobalHandlers(s, topic))
    }

    static lemma NextSubscriber(scopeMap: map<Handle, OwnScope>, s: seq<LocalSub>, i: nat, topic: string)
      requires i < |s| && Widest(scopeMap, s[..i], topic)
      ensures var h := s[i].handler;
        if !(s[i].topic <= topic) then Widest(scopeMap, s[..i + 1], topic)
        else if h !in scopeMap || (scopeMap[h] == Local && s[i].scope == Global)
        then Widest(scopeMap[h := s[i].scope], s[..i + 1], topic)
        else Widest(scopeMap, s[..i + 1], topic)
    {
      HandlersGrow(s, i, topic);
    }

    static lemma HandlersGrow(s: seq<LocalSub>, i: nat, topic: string)
      requires i < |s|
      ensures MatchingHandlers(s[..i + 1], topic) ==
              MatchingHandlers(s[..i], topic) + (if s[i].topic <= topic then {s[i].handler} else {})
      ensures GlobalHandlers(s[..i + 1], topic) ==
              GlobalHandlers(s[..i], topic) +
              (if s[i].topic <= topic && s[i].scope == Global then {s[i].handler} else {})
      ensures GlobalHandlers(s[..i], topic) <= MatchingHandlers(s[..i], topic)
    {
      assert s[..i + 1] == s[..i] + [s[i]];
    }

    method WidestScopes(topic: string) returns (scopeMap: map<Handle, OwnScope>)
      ensures Widest(scopeMap, pushHandlers, topic)
      ensures forall h :: h in scopeMap && scopeMap[h] == Global <==>
              exists s :: s in pushHandlers && s.topic <= topic && s.handler == h && s.scope == Global
    {
      scopeMap := map[];
      var subs := pushHandlers;
      for i := 0 to |subs|
        invariant Widest(scopeMap, subs[..i], topic)
      {
        NextSubscriber(scopeMap, subs, i, topic);
        if subs[i].topic <= topic {
          if subs[i].handler !in scopeMap {
            scopeMap := scopeMap[subs[i].handler := subs[i].scope];
          } else if scopeMap[subs[i].handler] == Local && subs[i].scope == Global {
            scopeMap := scopeMap[subs[i].handler := subs[i].scope];
          }
        }
      }
      assert subs[..|subs|] == subs;
    }

    method PushCrossGateway(topic: string, body: string, origin: GatewayId)
      requires Valid()
      modifies this
      ensures Valid() && State() == ReceiveData(old(State()), origin, Push(topic, body))
    {
      var d := Push(topic, body);
      var scopeMap := WidestScopes(topic);
      var receivers := set h | h in scopeMap && scopeMap[h] == Global;
      assert GlobalHandlers(pushHandlers, topic) <= MatchingHandlers(pushHandlers, topic);
      assert receivers == GlobalHandlers(pushHandlers, topic);
      DeliverTo(receivers, d);
      var neighbours := crossGatewaySubscriptions.GetHandlersForType(topic);
      SendData(neighbours - {origin}, d);
      ConnectedSame(old(State()), State());
    }

    method PullRequestCrossGateway(pid: string, topic: string, body: string, origin: GatewayId)
      requires Valid()
      modifies this
      ensures Valid() && State() == ReceiveData(old(State()), origin, Data.PullRequest(pid, topic, body))
    {
      var d := Data.PullRequest(pid, topic, body);
      DeliverPullRequest(topic, {}, d);
      cgPullRequestReturnIds := cgPullRequestReturnIds[pid := origin];
      ForwardPullRequest(topic, {origin}, d);
    }

    method PullResponseCrossGateway(pid: string, body: string, origin: GatewayId) returns (routed: bool)
      requires Valid()
      modifies this
      ensures Valid() && State() == ReceiveData(old(State()), origin, Data.PullResponse(pid, body))
      ensures routed <==> pid in old(plugins) ||
                          (pid in old(cgPullRequestReturnIds) && old(cgPullRequestReturnIds)[pid] != origin)
    {
      var d := Data.PullResponse(pid, body);
      if pid in plugins {
        delivered := delivered + multiset{Delivery(plugins[pid], d)};
        return true;
      }
      if pid in cgPullRequestReturnIds {
        var next := cgPullRequestReturnIds[pid];
        if next != origin {
          if next in crossGatewayHandlers {
            SendData({next}, d);
          }
          return true;
        }
      }
      return false;
    }

    method UnregisterPullResponsePluginIdCrossGateway(pid: string, origin: GatewayId)
      requires Valid()
      modifies this`cgPullRequestReturnIds
      ensures Valid() && State() == ForgetReturn(old(State()), pid, origin)
    {
      if pid in cgPullRequestReturnIds {
        if cgPullRequestReturnIds[pid] == origin {
          cgPullRequestReturnIds := cgPullRequestReturnIds - {pid};
        }
      }
    }
  }
}
