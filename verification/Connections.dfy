/** The objects behind a plugin connection and a neighbour connection. */
module Connections {
  import opened Topology
  import opened Tables
  import opened Core
  import opened Conservation
  import opened Handlers

  /** Erases the first occurrence. */
  method EraseFirst(topics: seq<string>, t: string) returns (rest: seq<string>)
    ensures rest == Drop(topics, t)
  {
    var i := 0;
    while i < |topics|
      invariant 0 <= i <= |topics|
      invariant forall j :: 0 <= j < i ==> topics[j] != t
    {
      if topics[i] == t {
        return topics[..i] + topics[i + 1..];
      }
      i := i + 1;
    }
    return topics;
  }

  class GatewayEventHandler {
    const handle: Handle
    const core: GatewayCore
    var registeredHandlers: seq<string>
    var registeredPullRequestHandlers: seq<string>
    var registeredPullResponsePluginIds: set<string>

    ghost function OwnLists(): Plugin
      reads this
    {
      Plugin(registeredHandlers, registeredPullRequestHandlers, registeredPullResponsePluginIds)
    }

    constructor (handle: Handle, core: GatewayCore)
      ensures this.handle == handle && this.core == core && OwnLists() == Plugin([], [], {})
    {
      this.handle, this.core := handle, core;
      registeredHandlers, registeredPullRequestHandlers, registeredPullResponsePluginIds := [], [], {};
    }

    method OnMessageAvailable(m: PluginMessage)
      requires core.Valid()
      modifies this, core
      ensures core.Valid() && core.State() == CoreAfterPlugin(old(core.State()), handle, m)
      ensures OwnLists() == PluginAfter(old(core.State()), old(OwnLists()), handle, m)
    {
      if m.RegisterDataMsg? || m.UnregisterDataMsg? || m.RegisterPullMsg? || m.UnregisterPullMsg? {
        OnRegistration(m);
        return;
      }
      match m
      case PushMsg(topic, body, device, scope, ack) => OnPush(topic, body, device, scope, ack);
      case PullMsg(pid, topic, body, scope) => OnPull(pid, topic, body, scope);
      case AnswerMsg(pid, body) => var _ := core.PullResponse(pid, body);
    }

    method OnRegistration(m: PluginMessage)
      requires core.Valid() && (m.RegisterDataMsg? || m.UnregisterDataMsg? || m.RegisterPullMsg?
                                || m.UnregisterPullMsg?)
      modifies this, core
      ensures core.Valid() && core.State() == CoreAfterPlugin(old(core.State()), handle, m)
      ensures OwnLists() == PluginAfter(old(core.State()), old(OwnLists()), handle, m)
    {
      match m
      case RegisterDataMsg(topic, scope) =>
        core.RegisterDataInterest(topic, scope, handle);
        registeredHandlers := registeredHandlers + [topic];
      case UnregisterDataMsg(topic, scope) =>
        var result := core.UnregisterDataInterest(topic, scope, handle);
        if result {
          registeredHandlers := EraseFirst(registeredHandlers, topic);
        }
      case RegisterPullMsg(topic, scope) =>
        core.RegisterPullInterest(topic, scope, handle);
        registeredPullRequestHandlers := registeredPullRequestHandlers + [topic];
      case UnregisterPullMsg(topic) =>
        var result := core.UnregisterPullInterest(topic, handle);
        if result {
          registeredPullRequestHandlers := EraseFirst(registeredPullRequestHandlers, topic);
        }
    }

    method OnPush(topic: string, body: string, device: string, scope: OwnScope, ack: bool)
      requires core.Valid()
      modifies this`registeredPullResponsePluginIds, core
      ensures core.Valid() && core.State() == PushLocal(old(core.State()), handle, topic, body, device, scope, ack)
      ensures registeredPullResponsePluginIds == old(registeredPullResponsePluginIds) + if ack then {device} else {}
    {
      core.PushData(handle, topic, body, device, scope, ack);
      if ack {
        registeredPullResponsePluginIds := registeredPullResponsePluginIds + {device};
      }
    }

    method OnPull(pid: string, topic: string, body: string, scope: OwnScope)
      requires core.Valid()
      modifies this`registeredPullResponsePluginIds, core
      ensures core.Valid() && core.State() == PullLocal(old(core.State()), handle, pid, topic, body, scope)
      ensures registeredPullResponsePluginIds == old(registeredPullResponsePluginIds) + {pid}
    {
      core.PullRequest(handle, pid, topic, body, scope);
      registeredPullResponsePluginIds := registeredPullResponsePluginIds + {pid};
    }

    method WithdrawPushes()
      requires core.Valid()
      modifies core
      ensures core.Valid() && core.State() == WithdrawPush(old(core.State()), registeredHandlers, handle)
    {
      var i := 0;
      while i < |registeredHandlers|
        invariant 0 <= i <= |registeredHandlers| && core.Valid()
        invariant WithdrawPush(core.State(), registeredHandlers[i..], handle) ==
                  WithdrawPush(old(core.State()), registeredHandlers, handle)
      {
        var _ := core.UnregisterDataInterest(registeredHandlers[i], All, handle);
        assert registeredHandlers[i..][1..] == registeredHandlers[i + 1..];
        i := i + 1;
      }
    }

    method WithdrawPulls()
      requires core.Valid()
      modifies core
      ensures core.Valid() && core.State() == WithdrawPull(old(core.State()), registeredPullRequestHandlers, handle)
    {
      var i := 0;
      while i < |registeredPullRequestHandlers|
        invariant 0 <= i <= |registeredPullRequestHandlers| && core.Valid()
        invariant WithdrawPull(core.State(), registeredPullRequestHandlers[i..], handle) ==
                  WithdrawPull(old(core.State()), registeredPullRequestHandlers, handle)
      {
        var _ := core.UnregisterPullInterest(registeredPullRequestHandlers[i], handle);
        assert registeredPullRequestHandlers[i..][1..] == registeredPullRequestHandlers[i + 1..];
        i := i + 1;
      }
    }

    method WithdrawPluginIds()
      requires core.Valid()
      modifies core
      ensures core.Valid() && core.State() == WithdrawIds(old(core.State()), registeredPullResponsePluginIds, handle)
    {
      ghost var g := core.State();
      var ids := registeredPullResponsePluginIds;
      var todo := ids;
      assert WithdrawIds(g, {}, handle) == g;
      while todo != {}
        invariant todo <= ids && core.Valid()
        invariant core.State() == WithdrawIds(g, ids - todo, handle)
      {
        var pid :| pid in todo;
        OneIdMore(g, ids - todo, pid, handle);
        core.UnregisterPullResponsePluginId(pid, handle);
        assert ids - (todo - {pid}) == ids - todo + {pid};
        todo := todo - {pid};
      }
      assert ids - {} == ids;
    }

    /** The destructor. */
    method Destroy()
      requires core.Valid()
      modifies core
      ensures core.Valid() && core.State() == ClosePlugin(old(core.State()), OwnLists(), handle)
    {
      WithdrawPushes();
      WithdrawPulls();
      WithdrawPluginIds();
    }
  }

  lemma OneIdMore(g: Gateway, ids: set<string>, pid: string, h: Handle)
    ensures ForgetPlugin(WithdrawIds(g, ids, h), pid, h) == WithdrawIds(g, ids + {pid}, h)
  {
  }

  lemma OneRouteMore(g: Gateway, ids: set<string>, pid: string, id: GatewayId)
    ensures ForgetReturn(WithdrawRoutes(g, ids, id), pid, id) == WithdrawRoutes(g, ids + {pid}, id)
  {
  }

  class CrossGatewayEventHandler {
    const core: GatewayCore
    var gatewayId: GatewayId
    var registeredWithGateway: bool
    var registeredHandlers: seq<string>
    var registeredPullHandlers: seq<string>
    var registeredPullResponsePluginIds: set<string>

    ghost function OwnLists(): Neighbour
      reads this
    {
      Neighbour(registeredHandlers, registeredPullHandlers, registeredPullResponsePluginIds)
    }

    /** What the lists cover; before association there is nothing to withdraw. */
    ghost predicate Valid()
      reads this, core, core.crossGatewaySubscriptions
    {
      && core.Valid()
      && if registeredWithGateway
         then gatewayId in core.crossGatewayHandlers && TracksNeighbour(core.State(), OwnLists(), gatewayId)
         else OwnLists() == Neighbour([], [], {})
    }

    constructor (core: GatewayCore)
      ensures this.core == core && !registeredWithGateway && OwnLists() == Neighbour([], [], {})
    {
      this.core := core;
      gatewayId, registeredWithGateway := GatewayId(""), false;
      registeredHandlers, registeredPullHandlers, registeredPullResponsePluginIds := [], [], {};
    }

    /** The association message; the lists cover what is held for the neighbour if nothing was known about it before. */
    method OnAssociate(id: GatewayId)
      requires core.Valid()
      modifies this, core
      ensures core.Valid() && registeredWithGateway && gatewayId == id && OwnLists() == old(OwnLists())
      ensures core.State() == RegisterConnection(old(core.State()), id)
      ensures Valid() <==> TracksNeighbour(core.State(), OwnLists(), id)
      ensures old(Valid() && !registeredWithGateway) && Gone(old(core.State()), id) ==> Valid()
    {
      ghost var before := core.State();
      NoNeighbourKnown(before, id);
      gatewayId := id;
      core.RegisterCrossGatewayConnection(id);
      registeredWithGateway := true;
    }

    /** Before association the message is handled as well, under an empty id that has no link. */
    method OnControl(c: Control)
      requires core.Valid()
      modifies this, core, core.crossGatewaySubscriptions
      ensures old(Valid() && registeredWithGateway) ==> Valid()
      ensures registeredWithGateway == old(registeredWithGateway) && gatewayId == old(gatewayId)
      ensures core.State() == ReceiveControl(old(core.State()), gatewayId, c)
      ensures OwnLists() == NeighbourAfterControl(old(core.State()), old(OwnLists()), gatewayId, c)
    {
      ghost var before, lists := core.State(), OwnLists();
      ghost var right := Valid() && registeredWithGateway;
      Dispatch(c);
      if right { StaysValid(before, lists, c); }
    }

    lemma StaysValid(before: Gateway, lists: Neighbour, c: Control)
      requires core.Valid() && registeredWithGateway
      requires gatewayId in before.links && TracksNeighbour(before, lists, gatewayId)
      requires core.State() == ReceiveControl(before, gatewayId, c)
      requires OwnLists() == NeighbourAfterControl(before, lists, gatewayId, c)
      ensures Valid()
    {
      StaysCovered(before, lists, gatewayId, c);
    }

    static lemma StaysCovered(g: Gateway, n: Neighbour, id: GatewayId, c: Control)
      requires id in g.links && TracksNeighbour(g, n, id)
      ensures id in ReceiveControl(g, id, c).links
      ensures TracksNeighbour(ReceiveControl(g, id, c), NeighbourAfterControl(g, n, id, c), id)
    {
      ControlKeepsTracking(g, n, id, id, c);
      ControlKeepsLinks(g, id, c);
    }

    method Dispatch(c: Control)
      requires core.Valid()
      modifies this`registeredHandlers, this`registeredPullHandlers, core, core.crossGatewaySubscriptions
      ensures core.State() == ReceiveControl(old(core.State()), gatewayId, c)
      ensures gatewayId in old(core.crossGatewayHandlers) ==> core.Valid()
      ensures OwnLists() == NeighbourAfterControl(old(core.State()), old(OwnLists()), gatewayId, c)
    {
      match c
      case Subscribe(topic) =>
        OnSubscribe(topic);
      case Unsubscribe(topic) =>
        // The topic would be taken off the list if the answer were ever true.
        var result := core.UnsubscribeCrossGateway(topic, gatewayId);
        assert !result;
      case RegisterPull(topic) =>
        OnRegisterPull(topic);
      case UnregisterPull(topic) =>
        OnUnregisterPull(topic);
    }

    method OnSubscribe(topic: string)
      requires core.Valid()
      modifies this`registeredHandlers, core, core.crossGatewaySubscriptions
      ensures core.State() == ReceiveControl(old(core.State()), gatewayId, Subscribe(topic))
      ensures gatewayId in old(core.crossGatewayHandlers) ==> core.Valid()
      ensures OwnLists() == NeighbourAfterControl(old(core.State()), old(OwnLists()), gatewayId, Subscribe(topic))
    {
      core.SubscribeCrossGateway(topic, gatewayId);
      registeredHandlers := registeredHandlers + [topic];
    }

    method OnRegisterPull(topic: string)
      requires core.Valid()
      modifies this`registeredPullHandlers, core, core.crossGatewaySubscriptions
      ensures core.State() == ReceiveControl(old(core.State()), gatewayId, RegisterPull(topic))
      ensures gatewayId in old(core.crossGatewayHandlers) ==> core.Valid()
      ensures OwnLists() == NeighbourAfterControl(old(core.State()), old(OwnLists()), gatewayId, RegisterPull(topic))
    {
      core.RegisterPullInterestCrossGateway(topic, gatewayId);
      registeredPullHandlers := registeredPullHandlers + [topic];
    }

    method OnUnregisterPull(topic: string)
      requires core.Valid()
      modifies this`registeredPullHandlers, core, core.crossGatewaySubscriptions
      ensures core.Valid() && core.State() == ReceiveControl(old(core.State()), gatewayId, UnregisterPull(topic))
      ensures OwnLists() == NeighbourAfterControl(old(core.State()), old(OwnLists()), gatewayId, UnregisterPull(topic))
    {
      var shorter := EraseFirst(registeredPullHandlers, topic);
      var result := core.UnregisterPullInterestCrossGateway(topic, gatewayId);
      if result {
        registeredPullHandlers := shorter;
      }
    }

    method OnData(d: Data)
      requires core.Valid()
      modifies this, core
      ensures core.Valid() && (old(Valid() && registeredWithGateway) ==> Valid())
      ensures registeredWithGateway == old(registeredWithGateway) && gatewayId == old(gatewayId)
      ensures core.State() == ReceiveData(old(core.State()), gatewayId, d)
      ensures OwnLists() == NeighbourAfterData(old(OwnLists()), d)
    {
      if TracksNeighbour(core.State(), OwnLists(), gatewayId) {
        DataKeepsTracking(core.State(), OwnLists(), gatewayId, gatewayId, d);
      }
      DataKeepsLinks(core.State(), gatewayId, d);
      DispatchData(d);
    }

    method DispatchData(d: Data)
      requires core.Valid()
      modifies this`registeredPullResponsePluginIds, core
      ensures core.Valid() && core.State() == ReceiveData(old(core.State()), gatewayId, d)
      ensures OwnLists() == NeighbourAfterData(old(OwnLists()), d)
    {
      match d
      case Push(topic, body) =>
        core.PushCrossGateway(topic, body, gatewayId);
      case PullRequest(pid, topic, body) =>
        core.PullRequestCrossGateway(pid, topic, body, gatewayId);
        registeredPullResponsePluginIds := registeredPullResponsePluginIds + {pid};
      case PullResponse(pid, body) =>
        var _ := core.PullResponseCrossGateway(pid, body, gatewayId);
    }

    /** The destructor. */
    method Destroy()
      requires Valid()
      modifies core, core.crossGatewaySubscriptions
      ensures core.Valid()
      ensures registeredWithGateway ==> core.State() == CloseNeighbour(old(core.State()), OwnLists(), gatewayId)
      ensures !registeredWithGateway ==> core.State() == old(core.State())
    {
      ghost var g := core.State();
      if registeredWithGateway { WithdrawClears(g, OwnLists(), gatewayId); }
      WithdrawSubscriptions();
      WithdrawPullInterests();
      WithdrawReturnIds();
      if registeredWithGateway {
        core.UnregisterCrossGatewayConnection(gatewayId);
      }
    }

    method WithdrawSubscriptions()
      requires core.Valid()
      modifies core, core.crossGatewaySubscriptions
      ensures core.Valid() && core.State() == WithdrawSubs(old(core.State()), registeredHandlers, gatewayId)
    {
      var i := 0;
      while i < |registeredHandlers|
        invariant 0 <= i <= |registeredHandlers| && core.Valid()
        invariant WithdrawSubs(core.State(), registeredHandlers[i..], gatewayId) ==
                  WithdrawSubs(old(core.State()), registeredHandlers, gatewayId)
      {
        var _ := core.UnsubscribeCrossGateway(registeredHandlers[i], gatewayId);
        assert registeredHandlers[i..][1..] == registeredHandlers[i + 1..];
        i := i + 1;
      }
    }

    method WithdrawPullInterests()
      requires core.Valid()
      modifies core, core.crossGatewaySubscriptions
      ensures core.Valid() && core.State() == WithdrawPulls(old(core.State()), registeredPullHandlers, gatewayId)
    {
      var i := 0;
      while i < |registeredPullHandlers|
        invariant 0 <= i <= |registeredPullHandlers| && core.Valid()
        invariant WithdrawPulls(core.State(), registeredPullHandlers[i..], gatewayId) ==
                  WithdrawPulls(old(core.State()), registeredPullHandlers, gatewayId)
      {
        var _ := core.UnregisterPullInterestCrossGateway(registeredPullHandlers[i], gatewayId);
        assert registeredPullHandlers[i..][1..] == registeredPullHandlers[i + 1..];
        i := i + 1;
      }
    }

    method WithdrawReturnIds()
      requires core.Valid()
      modifies core
      ensures core.Valid() && core.State() == WithdrawRoutes(old(core.State()), registeredPullResponsePluginIds,
                                                             gatewayId)
    {
      ghost var g := core.State();
      var ids := registeredPullResponsePluginIds;
      var todo := ids;
      assert WithdrawRoutes(g, {}, gatewayId) == g;
      while todo != {}
        invariant todo <= ids && core.Valid()
        invariant core.State() == WithdrawRoutes(g, ids - todo, gatewayId)
      {
        var pid :| pid in todo;
        OneRouteMore(g, ids - todo, pid, gatewayId);
        core.UnregisterPullResponsePluginIdCrossGateway(pid, gatewayId);
        assert ids - (todo - {pid}) == ids - todo + {pid};
        todo := todo - {pid};
      }
      assert ids - {} == ids;
    }
  }
}
