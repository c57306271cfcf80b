# A verified model of the gateway

This Dafny project models the parts of the gateway whose correctness is hard to see by reading,
and proves what they are relied on for. `dafny verify dfyconfig.toml` checks all of it.

**Publish and subscribe between gateways** (`Tables`, `GatewayCore`, `Connections`,
`Registrations`, `Effects`). Each gateway keeps local registrations with their scopes, counted
subscriptions of its neighbours, a reference-counted pull table and two maps of return routes.
`Core.GatewayCore` updates these tables in place, as the original's methods do; every method is
proved against a function from one table value to the next (`Tables`). The table of pull entries
is read as a multiset of (type, neighbour) registrations. `Connections` has the two kinds of
connection handlers, with the lists from which their destructors withdraw what is left.
`Registrations` and `Effects` say what all this does entry by entry: how many entries of each
type, plugin and scope there are, what is put into each queue, and what each plugin is handed.

**The network** (`Network`, `Conservation`, `Flooding`, `PushDelivery`, `PushRuns`, `Routing`,
`PullRouting`, `PullConservation`, `PullFailures`). A network is a map from gateway ids to
tables, with a queue of control messages and a bag of data messages for each direction of each
connection. A step is an operation of a local plugin, a new connection, the arrival of an
association message, or the delivery of one message; each handler is one atomic step. The
theorems hold for all runs: subscriptions are conserved on every link; flooding on a tree ends
after a number of deliveries known beforehand, at the right counts; a push is handed to every
recipient exactly once and comes to its end; a push or a pull request takes exactly the links
that lead to a gateway with a global entry for it, each once; a request is handed to whom it is
for exactly once, and an answer finds its way back; pull interests are conserved exactly under a
condition. A tree is given by its parent links (`Topology`), sums over it are in `Sums`.

**Connections over time** (`Handlers`, `Closing`, `Disconnects`, `Cuts`). A second step system
follows one gateway while plugins and neighbours come, speak and go. It shows that nothing a
table names is dead, and exactly when the closing of a neighbour keeps subscriptions conserved.
`Cuts` puts the two systems together: the network, with handlers' lists, and with connections
that break.

**Framed transport** (`SendQueue`, `Framing`, `FramedTransport`). A priority queue with a
counter to break ties, a writer that resumes after partial sends, and a reader that resumes
after partial receives, composed into whole connections, on which receive calls may also block,
fail, end or find no memory. CRC32 and the serialisation of messages are parameters; all that is
assumed is that checksums fit a word, that messages fit a frame and that parsing inverts
serialising.

**Grid references** (`MgrsGrid`, `MgrsPolar`, `MgrsText`, `Mgrs`, `MgrsLayout`). The letters and
the text form of the scheme of DMA TM 8358.1, chapter 3: exact reals before rounding, whole
metres after it. `MgrsLayout` has the layout of the grids letter by letter, and some known
references.

**Base64** (`Base64`). The four-step decoder with its saved state, against the plain meaning of
section 4 of RFC 4648: drop, concatenate, cut into bytes.

**Serial line** (`TerseCodec`, `RelayScheduler`, `SerialReceiver`, `ReceiverRuns`). The terse
packets, with writer and reader from different files, the cursor that goes round the known
positions, and the filter on the receiving side that keeps out older positions, over whole runs
of packets.

Where the code does not do what its comments or names promise, the model follows the code:

* `unsubscribeCrossGateway` answers false even when it removed a subscription, so the handler of
  a neighbour keeps the withdrawn subscription on its list and withdraws it again when it is
  destroyed (GatewayCore/GatewayCore.cpp:362, GatewayCore/CrossGatewayEventHandler.cpp:84-92).
  `Disconnects.DisconnectConservesIffNothingWithdrawn` says exactly when that does no harm,
  `Disconnects.WithdrawnTwice` gives a short harmful run,
  and `Cuts.SubscriptionsConservedIff` the exact condition over runs of the whole network.
* A local pull interest is withdrawn without telling any neighbour, because the scope that was
  found is never taken over (GatewayCore/GatewayCore.cpp:134-139), and a new link is not told the
  pull interests there are (GatewayCore/GatewayCore.cpp:295-319). So only push subscriptions are
  always conserved. `PullConservation.PullInterestsConservedIff` says exactly on which runs pull
  interests are, `PullFailures` has a short run for each way in which they are not.
* The lookup table of the base64 decoder has 80 cells, but 81 offsets are let through
  (LDAPPlugin/cdecode.c:15): byte 123 is looked up behind the table.
  `Base64.PlainExactlyWithinTable` says when that matters.
* The receiver of relayed positions multiplies the whole coordinate by the scale, not the
  difference (SerialGatewayPlugin/SerialMessageProcessor.cpp:568-570), which is right only for
  scale 1: `SerialMessageProcessor.ScalingInvertsIff`.
* The receiver drops relayed positions older than the time it remembers for their name, but what
  a name reports about itself is pushed and remembered in any case
  (SerialGatewayPlugin/SerialMessageProcessor.cpp:210 and 513), so the times pushed for a name can
  go back: `ReceiverRuns.OwnTimesFall`, `ReceiverRuns.OlderHandedOn`. `ReceiverRuns.NeverFallIff`
  says exactly on which runs of packets they never do.
* An empty string is written as a zero length, which the reader takes for the sign of the older
  encoding (SerialGatewayPlugin/SerialMessageProcessor.cpp:360-367):
  `TerseFields.StringRoundTripIff`.
* A polar reference that begins with C or D is accepted, because the row of the table is not
  compared with the letter (LibGeotransMgrs/mgrs.c:1285-1294):
  `MgrsPolar.PolarReferenceRoundTripIff`, `Mgrs.TakenToTheSouth`.
* Rounding truncates towards zero first, so below zero it is not to the nearest integer
  (LibGeotransMgrs/mgrs.c:354-370): `MgrsRounding.RoundsToNearestIff`,
  `MgrsRounding.HalvesGoToEvenIff`. Coordinates are never below zero.
* The counter that breaks ties in the send queue starts over after 2^64 messages:
  `SendQueue.OvertakenInRun`, and `SendQueue.NewestLeavesLastIff` for when order is kept.

## Model

| member | source | states |
|---|---|---|
| `SubscriptionStore.SubscriptionDataStore.GetHandlersForType` | GatewayCore/SubscriptionDataStore.cpp:34-44 | exactly the neighbours with at least one entry whose type is a prefix of the given one, each once however many references it has |
| `SubscriptionStore.SubscriptionDataStore.Subscribe` | GatewayCore/SubscriptionDataStore.cpp:46-48 | one more entry for the pair; equal entries are kept, so that they count references |
| `SubscriptionStore.SubscriptionDataStore.Unsubscribe` | GatewayCore/SubscriptionDataStore.cpp:50-71 | takes out the first entry for exactly this type and neighbour and no other; a missing one is ignored |
| `PullTable.EntryIffRegistered` | GatewayCore/GatewayCore.cpp:365-428 | a (type, neighbour) pair has an entry exactly when it has outstanding registrations |
| `PullTable.ReferencesCount` | GatewayCore/GatewayCore.cpp:365-428 | the references of an entry are the number of outstanding registrations of its pair |
| `PullTable.AddReference` | GatewayCore/GatewayCore.cpp:365-398 | counting one up in an entry is one more registration of its pair, and entries stay unique |
| `PullTable.DropReference` | GatewayCore/GatewayCore.cpp:400-428 | counting down, or removing the entry at its last reference, is one registration less, and entries stay unique |
| `PullTable.NeighboursRegistered` | GatewayCore/GatewayCore.cpp:504-513 | the neighbours found by scanning the table are those with an outstanding registration |
| `PullTable.NextEntry` | GatewayCore/GatewayCore.cpp:504-513 | a scan for a type meets each neighbour once, so one pull request is sent to it once |
| `Core.GatewayCore.RegisterDataInterest` | GatewayCore/GatewayCore.cpp:51-65 | the local entry is added and, for global scope, a subscribe is queued for every neighbour; nothing else changes |
| `Core.GatewayCore.UnregisterDataInterest` | GatewayCore/GatewayCore.cpp:67-99 | removes the first entry of this plugin, type and scope (or of any scope, if asked), tells every neighbour exactly if that entry was global, and answers whether there was one |
| `Core.GatewayCore.RegisterPullInterest` | GatewayCore/GatewayCore.cpp:101-116 | the local entry is added and, for global scope, every neighbour is told |
| `Core.GatewayCore.UnregisterPullInterest` | GatewayCore/GatewayCore.cpp:118-146 | removes the first matching entry and tells no neighbour, whatever its scope was |
| `Core.GatewayCore.GetPushHandlersForType` | GatewayCore/GatewayCore.cpp:552-562 | the plugins with a subscription to a prefix of the type, in any scope |
| `Core.GatewayCore.PushData` | GatewayCore/GatewayCore.cpp:148-182 | every local subscriber but the sender gets the push once, every subscribed neighbour gets it once if the scope is global, and an acknowledged push records the sender under its device id |
| `Core.GatewayCore.PullRequest` | GatewayCore/GatewayCore.cpp:198-232 | each local registration for the exact type that the sender did not make gets the request, and each interested neighbour once; the plugin id is recorded for the answer |
| `Core.GatewayCore.PullResponse` | GatewayCore/GatewayCore.cpp:234-254 | goes to the local plugin with that id, otherwise along the recorded return route, otherwise nowhere, and the result says which |
| `Core.GatewayCore.UnregisterPullResponsePluginId` | GatewayCore/GatewayCore.cpp:256-264 | forgets the id only if it still belongs to this plugin |
| `Core.GatewayCore.RegisterCrossGatewayConnection` | GatewayCore/GatewayCore.cpp:295-319 | the new link starts with a subscribe for each global local entry and for each reference of every other neighbour; pull interests are not replayed |
| `Core.GatewayCore.UnregisterCrossGatewayConnection` | GatewayCore/GatewayCore.cpp:321-333 | the link is removed and nothing else changes; every forward still finds a link if and only if no table names that neighbour |
| `Core.GatewayCore.SubscribeCrossGateway` | GatewayCore/GatewayCore.cpp:335-348 | counts one reference for the origin and passes the subscribe to every other neighbour; every forward still finds a link if and only if the origin has one |
| `Core.GatewayCore.UnsubscribeCrossGateway` | GatewayCore/GatewayCore.cpp:349-363 | takes one reference of the origin, passes the unsubscribe to every other neighbour, and answers false in all cases |
| `Core.GatewayCore.RegisterPullInterestCrossGateway` | GatewayCore/GatewayCore.cpp:365-398 | one more registration of the pair in the table read as a multiset, passed on to every other neighbour; every forward still finds a link if and only if the origin has one |
| `Core.GatewayCore.UnregisterPullInterestCrossGateway` | GatewayCore/GatewayCore.cpp:400-428 | one registration less, passed on to every other neighbour; answers whether there was one |
| `Core.GatewayCore.WidestScopes` | GatewayCore/GatewayCore.cpp:430-460 | maps exactly the matching plugins, and to global exactly those with a matching global entry, whatever order their entries come in |
| `Core.GatewayCore.PushCrossGateway` | GatewayCore/GatewayCore.cpp:430-477 | each plugin with a matching global entry gets the push once, each subscribed neighbour but the origin once |
| `Core.GatewayCore.PullRequestCrossGateway` | GatewayCore/GatewayCore.cpp:479-515 | records the origin as the way back, hands the request to every local registration, passes it to each interested neighbour but the origin |
| `Core.GatewayCore.PullResponseCrossGateway` | GatewayCore/GatewayCore.cpp:517-540 | delivered to the local plugin, or sent on along the return route unless that is where it came from |
| `Core.GatewayCore.UnregisterPullResponsePluginIdCrossGateway` | GatewayCore/GatewayCore.cpp:542-550 | forgets the return route only if it still leads to this neighbour |
| `Registrations.WithdrawalTakes` | GatewayCore/GatewayCore.cpp:67-99 | withdrawing with one of the two scopes lowers the number of entries of that type, plugin and scope by one if there is one, and the number of no other type, plugin or scope |
| `Registrations.WithdrawalOfAnyScopeTakesOne` | GatewayCore/GatewayCore.cpp:67-99 | withdrawing whatever the scope takes exactly one of the plugin's global and local entries for the type, if it has any, and nobody else's |
| `Registrations.ToldOfGlobalEntries` | GatewayCore/GatewayCore.cpp:51-116 | of all that plugins do, a neighbour is told exactly of each global entry that is made and of each global push entry that is taken out, by one message behind what is queued |
| `Registrations.LocalWithdrawalSilent` | GatewayCore/GatewayCore.cpp:93-98 | withdrawing a local registration changes no gateway's demand and no queue |
| `Registrations.EntriesAreRegistrations` | GatewayCore/GatewayCore.cpp:51-146 | over every run from the start and for each type, plugin and scope: the push entries, and the pull entries, are the registrations made with that scope less the withdrawals that took one of it |
| `Effects.QueuedForNeighbour` | GatewayCore/GatewayCore.cpp:148-254 | what a plugin does queues for a neighbour one push if it is global and the neighbour has an entry for a prefix of its type, one request if it is global and the neighbour has a registration for its exact type, one answer if no plugin has its id and the way back leads there, and otherwise no data |
| `Effects.PassedToNeighbour` | GatewayCore/GatewayCore.cpp:430-540 | what arrives is queued for another neighbour under the same conditions, whatever its scope was, and never for the one it came from |
| `Effects.HandedByPlugin` | GatewayCore/GatewayCore.cpp:148-254 | what a plugin does hands to another one a push once if it has an entry for a prefix, a request once for each of its entries for the exact type, and an answer if it owns the id; nothing else, and nothing of its own back |
| `Effects.HandedByNeighbour` | GatewayCore/GatewayCore.cpp:430-540 | what arrives hands to a plugin a push once if it has a global entry for a prefix, a request once for each of its entries, and an answer if it owns the id |
| `Effects.IdsOfPlugins` | GatewayCore/GatewayCore.cpp:148-264 | an id belongs to the plugin that last asked with it or had a push acknowledged under it, until that plugin gives it up; no plugin changes the ways back |
| `Effects.IdsOfRequests` | GatewayCore/GatewayCore.cpp:479-540 | a request that arrives leaves the way back to where it came from, and nothing else that arrives changes an id or a way back |
| `Effects.ReferencesCounted` | GatewayCore/GatewayCore.cpp:335-428 | a control message changes only the sender's references for its own type, by one, and takes none that is not there |
| `Effects.ControlPassedOn` | GatewayCore/GatewayCore.cpp:335-428 | a control message is passed on once to every other neighbour and never back |
| `Effects.ConnectionStarts` | GatewayCore/GatewayCore.cpp:295-319 | a new neighbour is sent subscriptions only, as many of each type as its demand, and the other queues stay as they are |
| `Effects.WayBackGivenUp` | GatewayCore/GatewayCore.cpp:542-550 | a way back is erased exactly if it has this id and leads to this neighbour, and nothing else changes |
| `Connections.GatewayEventHandler.OnMessageAvailable` | GatewayCore/GatewayEventHandler.cpp:41-207 | every kind of plugin message changes the gateway's tables and the handler's own lists as `Handlers.MessageKeepsTracking` assumes |
| `Connections.GatewayEventHandler.Destroy` | GatewayCore/GatewayEventHandler.cpp:322-338 | withdraws one entry for each item on the handler's lists, pushes first, then pulls, then plugin ids |
| `Connections.CrossGatewayEventHandler.OnAssociate` | GatewayCore/CrossGatewayEventHandler.cpp:60-71 | the neighbour gets its link and its replay, and the handler its id; its lists cover what is held under that id if nothing was known about it |
| `Connections.CrossGatewayEventHandler.OnControl` | GatewayCore/CrossGatewayEventHandler.cpp:74-127 | tables and own lists after each control message, also before association; a withdrawn subscription stays on the list, a withdrawn pull interest leaves it; once associated, lists and tables stay in step |
| `Connections.CrossGatewayEventHandler.OnData` | GatewayCore/CrossGatewayEventHandler.cpp:93-107 | tables after a push, pull or answer, also before association; the handler remembers the ids of pull requests it brought in |
| `Connections.CrossGatewayEventHandler.Destroy` | GatewayCore/CrossGatewayEventHandler.cpp:256-277 | withdraws all that is on the lists, then removes the link; nothing happens for a neighbour that never associated |
| `Handlers.MessageKeepsTracking` | GatewayCore/GatewayEventHandler.cpp:41-207 | after any plugin message each handler's lists still match its push and pull entries and cover its ids, for the sender and for every other plugin |
| `Handlers.CloseForgets` | GatewayCore/GatewayEventHandler.cpp:322-338 | after a plugin's destructor none of the three tables mentions it, and the lists of all other plugins still match |
| `Handlers.ControlKeepsTracking` | GatewayCore/CrossGatewayEventHandler.cpp:74-127 | a neighbour's list covers its counted subscriptions and equals its pull registrations after any control message of any neighbour |
| `Handlers.DataKeepsTracking` | GatewayCore/CrossGatewayEventHandler.cpp:93-107 | data messages keep the lists in step with subscriptions, pull registrations and return routes |
| `Handlers.WithdrawClears` | GatewayCore/CrossGatewayEventHandler.cpp:256-277 | withdrawing takes out every entry of the neighbour and leaves every count of every other neighbour as it was |
| `Handlers.CloseNeighbourForgets` | GatewayCore/CrossGatewayEventHandler.cpp:256-277 | after the destructor no table names the neighbour, every table entry still has a live link, and the other neighbours' lists are still in step |
| `Handlers.HistoryTracked` | GatewayCore/GatewayEventHandler.cpp:41-207 | for every run of connections opening, speaking and closing: all lists are in step with all tables |
| `Handlers.TablesNameTheLiving` | GatewayCore/CrossGatewayEventHandler.cpp:256-277 | in every reachable state every plugin named in a table is alive, and every neighbour named in the subscriptions, the pull table or the return routes has a live connection |
| `Closing.PluginTakesItsOwn` | GatewayCore/GatewayEventHandler.cpp:322-338 | a closing plugin takes all its entries of either scope and all its ids with it, and the entries and ids of all others stay as they are |
| `Closing.ClosingPluginTells` | GatewayCore/GatewayEventHandler.cpp:322-338 | its destructor tells each neighbour exactly how the demand for each type has changed, sends no data and leaves neighbours' entries and ways back alone |
| `Closing.NeighbourTakesItsOwn` | GatewayCore/CrossGatewayEventHandler.cpp:256-277 | a closing neighbour takes all its references, registrations and ways back with it; those of all others, and the data queued for them, stay |
| `Disconnects.ClosedPluginLeavesNoTrace` | GatewayCore/GatewayEventHandler.cpp:322-338 | in every run, once a plugin's connection is closed no table mentions it |
| `Disconnects.OnlyLivingPluginsAddressed` | GatewayCore/GatewayCore.cpp:148-182 | in every run, no step hands anything to a plugin whose connection is closed |
| `Disconnects.DisconnectConservesIffNothingWithdrawn` | GatewayCore/CrossGatewayEventHandler.cpp:256-277 | the closing of a neighbour tells the remaining ones exactly the change in demand if and only if that neighbour withdrew no subscription while it was connected |
| `Disconnects.WithdrawnTwice` | GatewayCore/GatewayCore.cpp:349-363 | a short run on which that fails: one subscribe, one unsubscribe and a close leave another neighbour told to drop one too many |
| `Cuts.StepKeepsOk` | GatewayCore/CrossGatewayEventHandler.cpp:256-277 | over every step of a network whose connections also break: links are to those that have greeted, tables name only those, and every handler's lists are in step with them |
| `Cuts.ClosingBalancesIff` | GatewayCore/CrossGatewayEventHandler.cpp:256-277 | a link to a remaining neighbour stays balanced for a type if and only if the closed handler lists as many subscriptions as are held |
| `Cuts.CutConservesIff` | GatewayCore/CrossGatewayEventHandler.cpp:256-277 | when a connection breaks, all links of the network stay balanced if and only if both ends close cleanly: nobody else is left to be told, or nothing held for the other end has been withdrawn |
| `Cuts.NothingDroppedIff` | GatewayCore/CrossGatewayEventHandler.cpp:84-92 | that is so if and only if since the association no unsubscribe of the other end has taken an entry |
| `Cuts.SubscriptionsConservedIff` | GatewayCore/GatewayCore.cpp:51-99 | over every run with connections made and broken at any time: subscriptions are conserved on all links in all states if and only if every break is clean |
| `PullConservation.PullRegistrationTold` | GatewayCore/GatewayCore.cpp:101-116 | registering a pull interest tells each neighbour exactly the change in global pull registrations |
| `PullConservation.PullWithdrawalToldIffLocal` | GatewayCore/GatewayCore.cpp:118-146 | withdrawing one accounts for that change if and only if the entry removed, if any, was not global |
| `PullConservation.NoDemandIff` | GatewayCore/GatewayCore.cpp:365-428 | a gateway wants to be asked for nothing through a neighbour if and only if it has no global pull entry and no pull registration of another neighbour |
| `PullConservation.NewLinkToldIff` | GatewayCore/GatewayCore.cpp:295-319 | what a new link is told is the pull demand if and only if there is none |
| `PullConservation.NoWithdrawalEverTold` | GatewayCore/GatewayCore.cpp:134-139 | in no run, while links stay up, is any gateway ever told that a pull interest has been withdrawn |
| `PullConservation.StepConservesPullsIff` | GatewayCore/GatewayCore.cpp:365-428 | a step of the network keeps pull interests conserved on every link if and only if it neither withdraws a global entry at a gateway with neighbours nor associates at a gateway with pull demand |
| `PullConservation.PullInterestsConservedIff` | GatewayCore/GatewayCore.cpp:101-146 | in every state of a run from the start, registered plus under way is wanted on every link, if and only if no step of the run does either |
| `PullFailures.NotToldOfPlugin` | GatewayCore/GatewayCore.cpp:295-319 | a run after which a new neighbour is told nothing of a plugin's pull interest |
| `PullFailures.NotToldOfNeighbour` | GatewayCore/GatewayCore.cpp:295-319 | a run after which it is told nothing of another neighbour's pull interest |
| `PullFailures.NeverToldOfWithdrawal` | GatewayCore/GatewayCore.cpp:134-139 | a run after which a neighbour has been told of a pull interest that has been withdrawn |
| `Network.StepKeepsWellFormed` | GatewayCore/GatewayCore.cpp:295-319 | any step of the network keeps: a gateway has links exactly to those that have greeted it, and its tables name only those |
| `Conservation.NeverNegativeOnPrefixes` | GatewayCore/GatewayCore.cpp:335-363 | `never negative` read message by message is the same as read on all prefixes of the queue |
| `Conservation.StepKeepsGood` | GatewayCore/GatewayCore.cpp:335-363 | each step of the network (local work, connecting, associating, delivering) keeps the balance of every link for every type |
| `Conservation.RunKeepsGood` | GatewayCore/GatewayCore.cpp:335-363 | so does every run |
| `Conservation.SubscriptionsConserved` | GatewayCore/GatewayCore.cpp:51-99 | in every reachable state, for each link and type: what A counts for B plus the net subscribes under way is B's own global entries plus what B counts for all others; and no prefix of the queue drives the count below zero |
| `Conservation.UnsubscribeFindsEntry` | GatewayCore/GatewayCore.cpp:349-363 | in every reachable state, an unsubscribe that arrives finds the entry it withdraws |
| `Conservation.ForwardsFindConnections` | GatewayCore/GatewayCore.cpp:466-510 | in every reachable state, every neighbour a push or a pull is forwarded to has a live connection to a gateway that exists |
| `Topology.Forest.LinkSplits` | GatewayCore/GatewayCore.cpp:280-282 | cutting a link of a tree splits it: each gateway lies behind exactly one of its ends |
| `Topology.Forest.SideSplits` | GatewayCore/GatewayCore.cpp:280-282 | behind a link lie the near gateway and what lies behind its other links, and nothing else |
| `TreeSums.SideSum` | GatewayCore/GatewayCore.cpp:280-282 | any total over the gateways behind a link is that of the near gateway plus the totals behind its other links |
| `Flooding.CountsAtRest` | GatewayCore/GatewayCore.cpp:335-363 | on a tree at rest, the count for a neighbour is the number of global entries in the whole subtree behind it |
| `Flooding.DeliveryTakesOne` | GatewayCore/GatewayCore.cpp:335-363 | every delivery of a control message takes exactly one off the total of (messages times gateways behind them) |
| `Flooding.WorkLeftMeansBusy` | GatewayCore/GatewayCore.cpp:335-363 | that total is zero exactly when all queues are empty, and while it is not, a delivery is possible |
| `Flooding.FloodingTerminates` | GatewayCore/GatewayCore.cpp:335-363 | in any order of deliveries flooding is over after exactly that many, and never stuck before |
| `Flooding.RunsComeToRightCounts` | GatewayCore/GatewayCore.cpp:335-363 | after any run from the start, once at rest, all counts are the subtree totals |
| `PushDelivery.ForwardsToward` | GatewayCore/GatewayCore.cpp:462-476 | at rest each gateway forwards a push towards every gateway with a matching global entry |
| `PushDelivery.PushDeliveredOnce` | GatewayCore/GatewayCore.cpp:430-477 | a global push at rest, with any other traffic and any order of deliveries: each plugin is handed it exactly once if it is a recipient and never otherwise, at every gateway |
| `PushDelivery.EveryPushDeliveredOnce` | GatewayCore/GatewayCore.cpp:148-182 | the same for every run from the start: recipients are plugins with an entry of any scope for a prefix of the type at the sending gateway other than the sender, and with a global such entry elsewhere on the tree |
| `PushDelivery.ForwardingEnds` | GatewayCore/GatewayCore.cpp:462-513 | whatever else goes on, a push or a pull request is forwarded over fewer links than there are gateways |
| `PushRuns.RunCountsPushes` | GatewayCore/GatewayCore.cpp:430-477 | in any run of traffic, what a plugin has been handed and what is on its way to it grow by exactly one with each equal push that is meant for it |
| `PushRuns.EachPushDeliveredOnce` | GatewayCore/GatewayCore.cpp:148-182 | for every run from the start that has come to rest on a tree: however many equal pushes overlap, from wherever and in any scope, once none is under way each plugin has been handed exactly as many as were meant for it |
| `PushRuns.OutstandingIffUnderWay` | GatewayCore/GatewayCore.cpp:462-513 | nothing is outstanding of a push or a request if and only if no copy of it is under way |
| `PushRuns.NeverStuck` | GatewayCore/GatewayCore.cpp:462-513 | as long as a copy is under way one can be delivered |
| `PushRuns.PushComesToItsEnd` | GatewayCore/GatewayCore.cpp:462-513 | at every point after a push or a pull request, deliveries made and still outstanding are fewer than the gateways, and it is over or can go on |
| `PushRuns.DeliverAll` | GatewayCore/GatewayCore.cpp:462-513 | there is a run of deliveries alone that brings a push or a request to its end |
| `Routing.PullCountsAtRest` | GatewayCore/GatewayCore.cpp:365-398 | where pull interests are conserved, on a tree at rest the registrations of a neighbour are the global pull entries in the whole subtree behind it |
| `Routing.StartQueuesIff` | GatewayCore/GatewayCore.cpp:174-230 | at rest a new push or request is queued for a neighbour, as one copy, if and only if it is global and some gateway behind that neighbour has a global entry for it |
| `Routing.ArrivalQueuesIff` | GatewayCore/GatewayCore.cpp:462-513 | and one that arrives is queued for each other neighbour if and only if some gateway behind that one has a global entry for it |
| `Routing.LocalStays` | GatewayCore/GatewayCore.cpp:174-230 | a local push or request changes no neighbour's queue |
| `Routing.EachLinkCarriesOnce` | GatewayCore/GatewayCore.cpp:148-230 | for every run from the start that has come to rest on a tree, once no copy is under way: each link that leads to a gateway with a global entry for it has carried every global push or request made behind its other end exactly once, and every other link none |
| `Routing.EachRequestHandedOnce` | GatewayCore/GatewayCore.cpp:198-230 | on such runs that conserve pull interests, each pull entry has been handed each request for its exact type exactly once that another plugin of its gateway made, in any scope, or that was made globally where a way to a global entry leads through its gateway, and nobody has been handed any other |
| `PullRouting.ReturnIdsLeadHome` | GatewayCore/GatewayCore.cpp:479-540 | in every run, each gateway a pull request visited points one hop nearer to the gateway of the plugin that asked, over a live link, to a gateway visited too |
| `PullRouting.AnswersNeverBounce` | GatewayCore/GatewayCore.cpp:517-540 | an answer that arrives is handed to the plugin that asked or sent on over another link than the one it came by |
| `PullRouting.AskedMayAnswer` | GatewayCore/GatewayCore.cpp:479-515 | in every run, wherever a plugin has been handed the request its answer is one of those that are counted: the gateway knows the plugin that asked or the way back to it |
| `PullRouting.AnswersArriveOnce` | GatewayCore/GatewayCore.cpp:234-254 | once none is under way, the plugin that asked has been handed exactly as many answers as were given at visited gateways, and nobody else any |
| `SendQueue.Top` | LibAmmoNetwork/NetworkServiceHandler.h:63-75 | some entry that no other precedes in the comparison the queue is ordered by |
| `SendQueue.OneTop` | LibAmmoNetwork/NetworkServiceHandler.h:63-75 | with different counter values there is only one such entry |
| `SendQueue.MessageQueue.SendMessage` | LibAmmoNetwork/NetworkServiceHandler.h:386-402 | queues the message with the next counter value, modulo 2^64, and with its priority, or what one signed byte keeps of it; not at all while the connection is closing |
| `SendQueue.KeptInOneByte` | LibAmmoNetwork/NetworkServiceHandler.h:57-61 | of a priority a value from -128 to 127 is kept that differs from it by a multiple of 256, so the priority itself if it is one |
| `SendQueue.MessageQueue.GetNextMessageToSend` | LibAmmoNetwork/NetworkServiceHandler.h:441-454 | takes out an entry that no other precedes and nothing else, or answers that there is none; with different counter values there is only one choice |
| `SendQueue.RunIsFair` | LibAmmoNetwork/NetworkServiceHandler.h:386-454 | over every run, at each priority what was taken followed by what is waiting is what was queued, in that order |
| `SendQueue.QueueOrder` | LibAmmoNetwork/NetworkServiceHandler.h:386-454 | for every priority, whatever its size: the messages offered at it leave in the order in which they were offered, and taken plus waiting are those offered |
| `SendQueue.NextIsFirstOfHighest` | LibAmmoNetwork/NetworkServiceHandler.h:441-454 | what is taken next comes before all else that is waiting: if all priorities fit in a signed byte it has the highest one offered and was offered first at it; in any case this holds of what is kept of them |
| `SendQueue.CounterStartsOver` | LibAmmoNetwork/NetworkServiceHandler.h:63-75 | the message whose counter value is the last before zero is overtaken by the next one of the same priority |
| `SendQueue.OvertakenInRun` | LibAmmoNetwork/NetworkServiceHandler.h:386-402 | the run on which that happens |
| `SendQueue.DrainingInOrder` | LibAmmoNetwork/NetworkServiceHandler.h:441-454 | left alone, any queue hands out its messages so that none stands before one to be sent before it |
| `SendQueue.NewestLeavesLastIff` | LibAmmoNetwork/NetworkServiceHandler.h:63-75 | whatever is waiting, a message queued now leaves after all of its priority if and only if none of these has a larger counter value |
| `Framing.WordRoundTrip` | LibAmmoNetwork/NetworkServiceHandler.h:39-47 | a header word is read back from wherever it stands in the buffer |
| `Framing.HeaderReadBack` | LibAmmoNetwork/NetworkServiceHandler.h:39-47 | the reader accepts the 20 bytes the writer makes and gets back size and checksum |
| `Framing.HeaderLayout` | LibAmmoNetwork/NetworkServiceHandler.h:39-47 | each of the 20 bytes: magic number, size, priority, three zeros, data checksum, header checksum, words with their low byte first |
| `Framing.AbsorbIsFeeding` | LibAmmoNetwork/NetworkServiceHandler.h:214-287 | a receive call's bytes taken at once, or in any smaller pieces, bring the reader to the same state |
| `Framing.StreamRead` | LibAmmoNetwork/NetworkServiceHandler.h:214-287 | of any concatenation of packets the reader delivers exactly those whose data it accepts, in order, up to the first empty one |
| `Framing.BadChecksumDropsOnePacket` | LibAmmoNetwork/NetworkServiceHandler.h:359-383 | a packet failing only its data checksum is dropped, and everything before and after it is delivered as if it had not been sent |
| `ServiceHandler.Receive` | LibAmmoNetwork/NetworkServiceHandler.h:214-232 | received bytes land behind the ones already in the buffer |
| `ServiceHandler.InputHandler.ProcessData` | LibAmmoNetwork/NetworkServiceHandler.h:359-383 | hands on the message exactly if checksum and parser accept the data |
| `ServiceHandler.InputHandler.HandleInput` | LibAmmoNetwork/NetworkServiceHandler.h:214-287 | one receive call moves the reader as the byte-by-byte machine would; it closes on zero bytes, a broken socket, a bad header or when there is no memory for the frame, and stays as it is when the call would block |
| `ServiceHandler.ClosesIff` | LibAmmoNetwork/NetworkServiceHandler.h:214-287 | a receive call closes the connection if and only if it fails, brings no bytes, announces a frame there is no memory for, or completes a header whose magic number or checksum is wrong; one that would block changes nothing |
| `ServiceHandler.OutputHandler.Load` | LibAmmoNetwork/NetworkServiceHandler.h:293-328 | the next message's frame replaces an exhausted one, if there is a message |
| `ServiceHandler.OutputHandler.Send` | LibAmmoNetwork/NetworkServiceHandler.h:330-344 | a partial send keeps exactly the bytes that were not accepted |
| `ServiceHandler.OutputHandler.HandleOutput` | LibAmmoNetwork/NetworkServiceHandler.h:290-356 | the bytes the socket accepts and the writer's new state, for any sequence of partial sends; the connection is given up exactly if a send call failed on a broken socket |
| `FramedTransport.NothingKeptBack` | LibAmmoNetwork/NetworkServiceHandler.h:290-356 | bytes sent and left to send are the bytes there were; as many send calls as there are bytes, each taking at least one, leave the queue empty |
| `FramedTransport.DeliveredIsPrefix` | LibAmmoNetwork/NetworkServiceHandler.h:214-383 | for any run of send calls and of receive calls, also such as block, fail, end or find no memory, the messages delivered are a prefix of those dequeued |
| `FramedTransport.EverythingDelivered` | LibAmmoNetwork/NetworkServiceHandler.h:214-383 | when the bytes of non-empty frames are all across and the reading end is still open, exactly the messages dequeued have been delivered, and it stands before a header |
| `FramedTransport.StaysOpen` | LibAmmoNetwork/NetworkServiceHandler.h:214-287 | without empty frames a run has closed the reading end if and only if one of its receive calls failed, ended or found no memory, and an open one never asks for zero bytes |
| `FramedTransport.ClosedIff` | LibAmmoNetwork/NetworkServiceHandler.h:214-287 | on every run, empty frames or not, the reading end is closed if and only if one of the receive calls made did one of these or completed a bad header |
| `FramedTransport.BlockingChangesNothing` | LibAmmoNetwork/NetworkServiceHandler.h:281-287 | a receive call that would block can be put anywhere into a run without making a difference to it |
| `FramedTransport.OfferedInOrder` | LibAmmoNetwork/NetworkServiceHandler.h:290-402 | what is delivered is, at each priority offered, a prefix of what was offered at it for sending, in order |
| `Bits.CompleteConcat` | LDAPPlugin/cdecode.c:44-84 | taking off complete bytes as bits arrive gives the same bytes and the same rest as taking them off at the end |
| `Bits.BytesBack` | LDAPPlugin/cdecode.c:25-87 | cutting the bits of bytes, and less than one byte more, into bytes gives the bytes |
| `Base64.TableIsAlphabet` | LDAPPlugin/cdecode.c:10-17 | for every byte but 123 the lookup has a value exactly for the characters of the alphabet of section 4 of RFC 4648, and it is their value |
| `Base64.AlphabetTable` | LDAPPlugin/cdecode.c:10-17 | the characters of the 64 values, as table 1 of RFC 4648 lists them |
| `Base64.OnePastTheTable` | LDAPPlugin/cdecode.c:10-17 | for byte 123 the answer is the cell behind the table, though it is no character of the alphabet |
| `Base64.TakeFragment` | LDAPPlugin/cdecode.c:44-84 | one step writes the completed byte, if any, begins the next, and changes nothing before or behind |
| `Base64.DecodeBlock` | LDAPPlugin/cdecode.c:25-87 | writes the complete bytes of the bits begun before and the sextets of the block, saves the rest, and leaves the buffer behind as it was |
| `Base64.FourDecoded` | LDAPPlugin/cdecode.c:44-84 | in numbers, four characters of the alphabet are decoded to the three bytes of their 24 bits, and nothing is begun then |
| `Base64.FewerDecoded` | LDAPPlugin/cdecode.c:44-84 | of three characters the first two of these bytes come out, and of two the first |
| `Base64.ChunkIndependent` | LDAPPlugin/cdecode.c:31-87 | decoding two chunks through the saved state gives the bytes and the state of decoding them at once, from every step |
| `Base64.BytesDecoded` | LDAPPlugin/cdecode.c:25-87 | k characters with a value give exactly floor(3k/4) bytes, with 6k minus 8 times that many bits left over |
| `Base64.PlainExactlyWithinTable` | LDAPPlugin/cdecode.c:10-17 | the result is the plain meaning (drop what is not in the alphabet, concatenate, cut into bytes) if and only if byte 123 does not occur or the cell behind the table is negative |
| `Base64.DecodeEncode` | LDAPPlugin/cdecode.c:25-87 | decoding the padded encoding of section 4 of RFC 4648 of any byte string gives it back |
| `MgrsRounding.RoundMgrs` | LibGeotransMgrs/mgrs.c:354-370 | for a value not below zero an integer within one half of it, the even one if two are; below zero the next integer at or above it |
| `MgrsRounding.OnlyOneRounded` | LibGeotransMgrs/mgrs.c:354-370 | only one integer meets that, so the method computes the independent definition: add one half, take the floor, and correct odd halves |
| `MgrsRounding.HalvesGoToEvenIff` | LibGeotransMgrs/mgrs.c:354-370 | a half is rounded to an integer next to it, and to the even one if and only if it is positive or the even one is above it |
| `MgrsRounding.NothingNearer` | LibGeotransMgrs/mgrs.c:354-370 | no integer is nearer to a coordinate than the rounded one |
| `MgrsRounding.RoundsToNearestIff` | LibGeotransMgrs/mgrs.c:354-370 | for any sign, the result is within one half if and only if the fraction towards zero is not below minus one half |
| `MgrsRounding.RoundedToMoves` | LibGeotransMgrs/mgrs.c:354-370 | rounding to p digits moves a coordinate by at most half of 10^(5-p) and leaves a multiple of that |
| `MgrsGrid.LatitudeInItsBand` | LibGeotransMgrs/mgrs.c:291-316 | the band letter of a latitude names a row of the band table whose latitudes it lies in, up to what is added before truncating |
| `MgrsGrid.BandOffset` | LibGeotransMgrs/mgrs.c:178-198 | each row's northing offset is its minimum northing rounded down to two million metres |
| `MgrsLayout.BandTable` | LibGeotransMgrs/mgrs.c:178-198 | the 20 bands by letter, eight degrees each from 80 degrees south; each minimum northing is a whole square, at most one square below that of the band's southern edge at 110950 metres for a degree |
| `MgrsLayout.ColumnLetters` | LibGeotransMgrs/mgrs.c:527-589 | the eight columns of a zone from west to east, letter by letter, in three sets that repeat |
| `MgrsLayout.RowLetters` | LibGeotransMgrs/mgrs.c:527-589 | the rows northwards from the equator go through A to V without I and O, from A in odd and F in even zones, and from L and R in the other pattern |
| `MgrsLayout.RowsOfTheEquator` | LibGeotransMgrs/mgrs.c:527-589 | the row at the equator is A in odd and F in even zones, and L and R in the other pattern |
| `MgrsLayout.RefusedIff` | LibGeotransMgrs/mgrs.c:1040-1106 | a reference is refused if and only if its zone does not exist, its column is not one of the zone's eight letters, its row is beyond V, its band is not C to X, or its point is off the grid |
| `MgrsGrid.GetGridValues` | LibGeotransMgrs/mgrs.c:527-589 | the column letters of a zone and the row offset of its letter pattern, from the zone modulo 6 |
| `MgrsGrid.GridSquare` | LibGeotransMgrs/mgrs.c:592-698 | the column letter and the row letter of a point, skipping I and O, after whole two millions have been taken off in a loop |
| `MgrsLayout.OnlyOneMoved` | LibGeotransMgrs/mgrs.c:592-698 | the easting is changed of exactly the points of zone 31V at 500000, by one metre |
| `MgrsGrid.Locate` | LibGeotransMgrs/mgrs.c:1040-1106 | the point of a reference: column back to easting, row back to the northing at or above the band's minimum; or an error for letters out of range, a zone that does not exist, or a northing above 10,000,000 |
| `MgrsGrid.OnlyCandidate` | LibGeotransMgrs/mgrs.c:1062-1084 | in any window of two million metres at most one northing fits a row letter, and the decoder picks it |
| `MgrsGrid.GridRoundTrip` | LibGeotransMgrs/mgrs.c:1040-1106 | for every zone, both patterns and every band, a decoded point has the zone, hemisphere and easting encoded, and decoding gives back the northing if and only if its 100 km floor lies in the band's window, it is at most 10,000,000 and the zone exists |
| `MgrsGrid.ReferenceRoundTrip` | LibGeotransMgrs/mgrs.c:1040-1106 | every accepted reference locates a point in the encoder's range and in the band's window, whose reference is that very reference |
| `MgrsPolar.PolarSquare` | LibGeotransMgrs/mgrs.c:1131-1235 | cap, column and row letters of a polar point, with all the skipped blocks |
| `MgrsPolar.PolarLocate` | LibGeotransMgrs/mgrs.c:1238-1342 | the polar point of a reference, or an error for letters left out or out of range |
| `MgrsPolar.ColumnsInOrder` | LibGeotransMgrs/mgrs.c:1131-1235 | the columns are A, B, C, F, G, H, J, K, L, P, Q, R eastwards and J to Z westwards, one letter for each 100 km |
| `MgrsLayout.PolarLetters` | LibGeotransMgrs/mgrs.c:1131-1235 | the cap, column and row letters of every point in range, letter by letter |
| `MgrsPolar.NoLeftOutColumn` | LibGeotransMgrs/mgrs.c:1131-1235 | no point in range is given a column D, E, I, M, N, O, V or W |
| `MgrsPolar.PolarRoundTripIff` | LibGeotransMgrs/mgrs.c:1238-1342 | decoding an encoded point gives it back if and only if the point is in range |
| `MgrsPolar.PolarReferenceRoundTripIff` | LibGeotransMgrs/mgrs.c:1238-1342 | encoding what an accepted reference locates gives back that reference if and only if it begins with A, B, Y or Z; C and D are accepted too, and taken to the south |
| `MgrsPolar.LocatedInRange` | LibGeotransMgrs/mgrs.c:1238-1342 | whatever an accepted reference locates is in range, so between points in range and accepted references of the four caps encoding and decoding are inverse bijections |
| `MgrsText.Keep` | LibGeotransMgrs/mgrs.c:373-419 | the digits written are the whole metres in the 100 km square divided by 10^(5-p), also just below the next square |
| `MgrsText.KeptMetres` | LibGeotransMgrs/mgrs.c:373-419 | the metres kept fall short of those in the square by less than 10^(5-p) |
| `MgrsText.MakeMgrsString` | LibGeotransMgrs/mgrs.c:373-419 | the buffer holds zone, letters and zero-padded digits, ended by a zero, in at most 15 characters |
| `MgrsLayout.TextStands` | LibGeotransMgrs/mgrs.c:373-419 | each character of a text: the two digits of the zone, the letters, then the leading digits of the easting in its square and as many of the northing |
| `MgrsLayout.AcceptedIff` | LibGeotransMgrs/mgrs.c:422-524 | whatever blanks precede and whatever follows, a text is accepted if and only if its zone is missing or 1 to 60 in at most two digits, it has three letters without I and O, and an even number of digits up to ten |
| `MgrsLayout.CaseDoesNotMatter` | LibGeotransMgrs/mgrs.c:422-524 | small letters are read as capitals |
| `MgrsText.BreakMgrsString` | LibGeotransMgrs/mgrs.c:422-524 | leading blanks, up to two digits, three letters without I and O, an even number of digits up to ten, or an error |
| `MgrsText.TextRoundTrip` | LibGeotransMgrs/mgrs.c:373-524 | breaking a made text gives back zone, letters, precision and the kept metres, if and only if the letters are without I and O, else an error |
| `Mgrs.UtmToMgrs` | LibGeotransMgrs/mgrs.c:592-698 | the text of a point: rounded, moved off the equator and the eastern edge of 31V, lettered, written; an error leaves the buffer alone |
| `MgrsLayout.NullIsland` | LibGeotransMgrs/mgrs.c:592-698 | where the equator crosses the meridian of Greenwich is written 31NAA6602100000 |
| `MgrsLayout.Washington` | LibGeotransMgrs/mgrs.c:592-698 | a point in Washington is written 18SUJ2337106519 |
| `MgrsLayout.EquatorIsNorthern` | LibGeotransMgrs/mgrs.c:592-698 | a point that rounds to the equator from the south is written as the one of the north |
| `Mgrs.ConvertMgrsToUtm` | LibGeotransMgrs/mgrs.c:997-1128 | the point of a text with a zone, or an error |
| `Mgrs.UtmTextRoundTrip` | LibGeotransMgrs/mgrs.c:592-698 | a point written and read again: if it is not refused, zone, hemisphere and rounded easting come back, and the rounded northing comes back if and only if it lies in the band's window and the zone exists; rounding moved each by at most half a unit |
| `Mgrs.UpsToMgrs` | LibGeotransMgrs/mgrs.c:1131-1235 | the text of a polar point whose letters are in the alphabet; an error, with the buffer left alone, exactly for input outside the caps |
| `MgrsLayout.Poles` | LibGeotransMgrs/mgrs.c:1131-1235 | the poles are written ZAH0000000000 and BAN0000000000 |
| `Mgrs.ConvertMgrsToUps` | LibGeotransMgrs/mgrs.c:1238-1342 | the polar point of a text without a zone, or an error |
| `Mgrs.UpsTextRoundTrip` | LibGeotransMgrs/mgrs.c:1131-1342 | a polar point written and read again is the rounded point if and only if that is in range; rounding moved it by at most half a unit in each direction |
| `Mgrs.TakenToTheSouth` | LibGeotransMgrs/mgrs.c:1285-1294 | a text beginning with C is read as the same southern point as a text beginning with A |
| `TerseFields.IntRoundTrip` | SerialGatewayPlugin/SerialMessageProcessor.cpp:414-456 | a two's-complement number that fits its bytes is read back, with the cursor just behind it, whatever follows |
| `TerseFields.IntRoundTripIff` | SerialGatewayPlugin/SerialMessageProcessor.cpp:414-456 | a number is read back with the cursor behind it if and only if it fits its bytes in two's complement |
| `TerseFields.HighestFirst` | SerialGatewayPlugin/GatewayReceiver.cpp:243-270 | numbers of one, two and four bytes are written with the highest byte first |
| `TerseFields.HighestReadFirst` | SerialGatewayPlugin/SerialMessageProcessor.cpp:414-456 | and read so |
| `TerseFields.UnsignedRoundTrip` | SerialGatewayPlugin/SerialMessageProcessor.cpp:504-507 | an unsigned number read through the signed reader and converted is itself |
| `TerseFields.HighPartLost` | SerialGatewayPlugin/GatewayReceiver.cpp:239-270 | what is too high for the bytes of a field does not change them |
| `TerseFields.GoodStringRead` | SerialGatewayPlugin/SerialMessageProcessor.cpp:341-368 | a string of 1 to 65535 bytes is read back |
| `TerseFields.StringRoundTripIff` | SerialGatewayPlugin/SerialMessageProcessor.cpp:341-390 | a string is read back with the cursor behind it if and only if it has 1 to 65535 bytes; others fall back to the older encoding |
| `TerseFields.BlobRoundTrip` | SerialGatewayPlugin/SerialMessageProcessor.cpp:392-412 | a blob of up to 65535 bytes is read back; a longer one is sent and read as empty |
| `TerseStreams.TerseWriter.AppendInt` | SerialGatewayPlugin/GatewayReceiver.cpp:243-270 | appends the bytes of the number, highest first, and nothing else |
| `TerseStreams.TerseWriter.AppendString` | SerialGatewayPlugin/GatewayReceiver.cpp:233-241 | appends a two-byte length and the bytes, or a zero length for a string that is too long |
| `TerseStreams.TerseWriter.AppendBlob` | SerialGatewayPlugin/GatewayReceiver.cpp:272-275 | as a string |
| `TerseStreams.TerseReader.ExtractInt` | SerialGatewayPlugin/SerialMessageProcessor.cpp:414-456 | value and cursor after a signed number, or zero with the cursor left when the message is too short |
| `TerseStreams.TerseReader.ExtractString` | SerialGatewayPlugin/SerialMessageProcessor.cpp:341-368 | text and cursor, for a good length, or after falling back to the older encoding |
| `TerseStreams.TerseReader.ExtractOldStyleString` | SerialGatewayPlugin/SerialMessageProcessor.cpp:370-390 | every second byte of the older encoding, and the cursor |
| `TerseStreams.TerseReader.ExtractBlob` | SerialGatewayPlugin/SerialMessageProcessor.cpp:392-412 | bytes and cursor, or empty when the message is too short |
| `TersePackets.EntryRoundTrip` | SerialGatewayPlugin/SerialMessageProcessor.cpp:561-566 | one relayed entry is read back field for field, with the cursor just behind it |
| `TersePackets.EntriesRoundTrip` | SerialGatewayPlugin/SerialMessageProcessor.cpp:555-566 | so is any number of them in a row |
| `TersePackets.RelayRead` | SerialGatewayPlugin/SerialMessageProcessor.cpp:495-525 | a relay packet is read back, except that its entries are lost if the blob is too long |
| `TersePackets.RelayRoundTripIff` | SerialGatewayPlugin/SerialMessageProcessor.cpp:495-525 | a relay packet is read back field for field, the cursor at its end, if and only if its blob has at most 65535 bytes |
| `TersePackets.RelayLayout` | SerialGatewayPlugin/GatewayReceiver.cpp:277-369 | where the fields of a relay packet stand: name, latitude, longitude, time, blob, each in its place and width; the blob begins with the number of entries |
| `TersePackets.EntryLayout` | SerialGatewayPlugin/GatewayReceiver.cpp:325-341 | where the fields of an entry stand |
| `TersePackets.ChatRoundTrip` | SerialGatewayPlugin/SerialMessageProcessor.cpp:529-546 | a chat packet is read back field for field, the cursor at its end |
| `TersePackets.ChatLayout` | SerialGatewayPlugin/GatewayReceiver.cpp:196-200 | where the fields of a chat packet stand |
| `TersePackets.ChatTimeTruncated` | SerialGatewayPlugin/GatewayReceiver.cpp:196-200 | times that differ by a multiple of 2^32 seconds are sent as the same bytes |
| `RelayWalk.PacketTakes` | SerialGatewayPlugin/GatewayReceiver.cpp:317-348 | a packet takes exactly k entries unless it has been all the way round, and never more |
| `RelayWalk.NoneTwice` | SerialGatewayPlugin/GatewayReceiver.cpp:344-347 | no call visits a position twice |
| `RelayWalk.OneWalk` | SerialGatewayPlugin/GatewayReceiver.cpp:317-348 | the positions visited by successive calls form one unbroken walk round the map, and the cursor stands at its end, whatever could be sent each time |
| `RelayWalk.WalkGetsOn` | SerialGatewayPlugin/GatewayReceiver.cpp:317-348 | each call advances the walk by at least k or all the way round |
| `RelayWalk.EveryEntryVisited` | SerialGatewayPlugin/GatewayReceiver.cpp:317-348 | any number of calls with k times that many at least n visits every one of n entries |
| `GatewayReceiver.PutKeepsSorted` | SerialGatewayPlugin/GatewayReceiver.cpp:219-231 | the map stays in the order of its names when one is put, and never shrinks, so the cursor stays inside it |
| `GatewayReceiver.PutThenLookup` | SerialGatewayPlugin/GatewayReceiver.cpp:219-231 | putting a position changes what is known of its name and of no other |
| `GatewayReceiver.LessIs` | SerialGatewayPlugin/GatewayReceiver.cpp:219-231 | the order of the names: by the first byte that differs, and a name before those it begins |
| `GatewayReceiver.GatewayReceiver.OnPli` | SerialGatewayPlugin/GatewayReceiver.cpp:143-150 | a position from the gateway is put under its name, the cursor unmoved and still inside the map |
| `GatewayReceiver.GatewayReceiver.AddPli` | SerialGatewayPlugin/GatewayReceiver.cpp:219-231 | a position from the serial line is put exactly if relaying is enabled |
| `GatewayReceiver.GatewayReceiver.RelayEntries` | SerialGatewayPlugin/GatewayReceiver.cpp:315-348 | the loop visits entries from the cursor on, sends those in reach, and stops at k sent or back at its start |
| `GatewayReceiver.DifferencesSent` | SerialGatewayPlugin/GatewayReceiver.cpp:317-341 | an entry carries the own latitude, longitude and time less the known ones, each divided by its scale towards zero, and is in reach if and only if these fit two, two and one bytes |
| `GatewayReceiver.GatewayReceiver.GetNextPliRelayPacket` | SerialGatewayPlugin/GatewayReceiver.cpp:277-369 | the packet made of the base position and the entries in reach of one stretch of the walk, and the cursor behind that stretch; empty with the cursor unmoved when the map is empty or there is no position |
| `GatewayReceiver.RelayedPacketArrives` | SerialGatewayPlugin/GatewayReceiver.cpp:277-369 | a scheduled packet is read back in full by the receiver if and only if its blob has at most 65535 bytes |
| `SerialMessageProcessor.OwnPositionArrives` | SerialGatewayPlugin/GatewayReceiver.cpp:277-369 | the sender's own name, position and time are read as the scheduler put them in, also when the entries are lost |
| `SerialMessageProcessor.SerialMessageProcessor.ParseGroupPliBlob` | SerialGatewayPlugin/SerialMessageProcessor.cpp:555-598 | all entries of a blob, taken in order: located, compared with the latest time of their name, forwarded or dropped |
| `SerialMessageProcessor.SerialMessageProcessor.ParseRelayPacket` | SerialGatewayPlugin/SerialMessageProcessor.cpp:495-525 | the sender's own position and, pushed through the blob, the others'; the own time is remembered in any case |
| `SerialMessageProcessor.SerialMessageProcessor.ProcessRelayMessage` | SerialGatewayPlugin/SerialMessageProcessor.cpp:172-210 | after what parsing pushes, the sender's own position is pushed in any case |
| `SerialMessageProcessor.OwnPushedLast` | SerialGatewayPlugin/SerialMessageProcessor.cpp:172-210 | the last position pushed for a packet is the sender's own, as it was read, and its time is the one kept |
| `SerialMessageProcessor.LocatedMeans` | SerialGatewayPlugin/SerialMessageProcessor.cpp:568-570 | an entry is taken to lie at the sender's own position less the difference, times the scale, in 32 bits |
| `SerialMessageProcessor.OnlyNewerForwarded` | SerialGatewayPlugin/SerialMessageProcessor.cpp:572-580 | of any sequence of entries, with no packet of the name itself in between, those forwarded for it are exactly the ones not older than all forwarded before, and the latest of them is remembered |
| `SerialMessageProcessor.DroppedIffOlder` | SerialGatewayPlugin/SerialMessageProcessor.cpp:572-580 | an entry is dropped if and only if a later time is kept for its name; otherwise it is pushed and its time kept, also when that is the same |
| `SerialMessageProcessor.RecordsRise` | SerialGatewayPlugin/SerialMessageProcessor.cpp:572-580 | among entries alone the times forwarded for a name do not decrease |
| `ReceiverRuns.EntriesKeepStep` | SerialGatewayPlugin/SerialMessageProcessor.cpp:572-580 | entries alone never make the times pushed for a name decrease, and the time remembered stays the last one pushed |
| `ReceiverRuns.PacketRisesIff` | SerialGatewayPlugin/SerialMessageProcessor.cpp:508-513 | after one packet the times pushed for a name still do not decrease if and only if, where it is the name's own report, its time is not below the last one pushed for it |
| `ReceiverRuns.KeptIsLastPushed` | SerialGatewayPlugin/SerialMessageProcessor.cpp:508-513 | in every state of every run of packets the time remembered for a name is the last one pushed for it, relayed or its own |
| `ReceiverRuns.NeverFallIff` | SerialGatewayPlugin/SerialMessageProcessor.cpp:190-210 | over every run of packets the times pushed for a name never decrease if and only if no time it reports about itself is below the last one pushed for it before |
| `ReceiverRuns.NeverFallFromStart` | SerialGatewayPlugin/SerialMessageProcessor.cpp:190-210 | the same for a receiver that has just been started |
| `ReceiverRuns.OwnTimesFall` | SerialGatewayPlugin/SerialMessageProcessor.cpp:190-210 | the failing input: own reports at 100 and 50 are pushed as 100 and then 50 |
| `ReceiverRuns.OlderHandedOn` | SerialGatewayPlugin/SerialMessageProcessor.cpp:511-513 | such a report also lets older entries through: relayed at 100, own report at 50, relayed at 60 is pushed as 100, 50, 60 |
| `SerialMessageProcessor.ScalingInvertsIff` | SerialGatewayPlugin/SerialMessageProcessor.cpp:568-570 | rescaling on the receiving side gives back every value exactly if the scale is 1 |
| `SerialMessageProcessor.RelayedAsKnown` | SerialGatewayPlugin/SerialMessageProcessor.cpp:568-570 | with both scales 1, a relayed position arrives as it is known at the sender |

## Left out

- Sockets, the reactor and its wake-ups, threads, locks and logging: every handler call is one
  atomic step.
- The error packet sent back on a bad header, the association result, push acknowledgements and
  reconnecting to the parent gateway.
- Fields that gateways only pass on (URIs, encodings, users, projections, priorities of data) are
  one text, `body`.
- A multimap is the sequence of its entries in insertion order; the order between different keys,
  which only decides the order of messages within one broadcast or replay, is not captured.
- Pointers to handlers are numbers that are never used twice; the table of connections maps a
  neighbour's id to what is queued for it.
- Data messages on a connection may overtake each other and control messages freely in the network
  model; that data has priorities is used only in the send queue.
- Reference counts are unbounded; the original's would wrap after 2^32 registrations.
- Conservation.SubscriptionsConserved: for runs in which no neighbour disconnects; with disconnects
  it does not hold of the code, see `Cuts.SubscriptionsConservedIff` for the exact condition.
- Cuts.SubscriptionsConservedIff: a connection breaks at both ends in one step, though each end
  notices on its own.
- PullRouting.AnswersArriveOnce: for a plugin id that belongs to one plugin at one gateway, while
  links stay up; the original lets other plugins claim an id, and then answers go to the last one.
- Connections.CrossGatewayEventHandler.OnAssociate: what the handler of another connection with the
  same id does afterwards is not followed; the later steps are for ids that are not in use.
- PullConservation.PullInterestsConservedIff: for runs in which no neighbour disconnects, as for
  subscriptions.
- Routing.EachRequestHandedOnce: for runs that have conserved pull interests, since otherwise
  requests go by tables that are wrong; `PullConservation.PullInterestsConservedIff` says which runs
  those are.
- SendQueue.QueueOrder: for fewer than 2^64 messages on a connection, since the counter then starts
  over.
- ServiceHandler.InputHandler.HandleInput: whether there is memory for a frame is a parameter;
  header words are little-endian.
- FramedTransport.StaysOpen: about the reading end; in whole runs send calls block but do not fail,
  and what closing does to the other direction is not followed.
- Transverse Mercator and polar stereographic projections, and with them the conversion of points of
  zone 31V again for zone 32V; series in floating point are not exact.
- Mgrs.ConvertMgrsToUtm: of the inverse projection only the checks of easting and northing are
  modelled, not its errors further on nor the warning about latitudes outside the band.
- Rounding errors of floating-point division and of the conversion between degrees and radians;
  values before rounding are exact reals.
- Mgrs.UtmToMgrs: for rounded eastings from 100000 up to but not including 900000, where the
  original's letters are letters of the zone.
- Mgrs.UpsToMgrs: for points whose letters lie in the alphabet; for others the original reads behind
  its alphabet.
- Mgrs.ConvertMgrsToUps: for first letters that lead to a row of the table (A to D, Y, Z); for
  others the original reads behind its table.
- The single bits of MGRS error codes: a conversion succeeds or fails.
- TerseStreams.TerseReader.ExtractOldStyleString: the doubling of the length does not wrap at 2^32.
- The JSON and protobuf wrapping of terse packets, the other packet types (Nevada positions, dash
  events), and checking for GPS and the time, which are parameters.
- GatewayReceiver.GatewayReceiver.GetNextPliRelayPacket: for at most 127 entries per packet, since
  the original counts them in eight bits, and without overflow of the differences beyond 32 bits.
- SerialMessageProcessor.SerialMessageProcessor.ParseGroupPliBlob: adding what is forwarded to the
  local relay map again is `GatewayReceiver.GatewayReceiver.AddPli`, not called from here.
- The receive queue of the Android plugin has the comparison of the send queue and is not modelled
  again.
- The unpacking of sensor payloads, the data store's SQL, the LDAP client, downloads, configuration,
  the Qt manager and the services: input, output and user interface.
