# Verified models of Lantern's concurrent and stateful core

This project models, in Dafny, the parts of the Lantern client where many goroutines, crashes or
message orders make the outcome hard to see, and proves what holds of every run.

Concurrent parts are state machines: a state holds what the goroutines share and where each of them
is, an action is the code between two points where a goroutine may block, and a run is any sequence
of enabled actions. Fields marked `history` only record what happened. Beside each machine stands a
class with the fields of the source's object and, for goroutines, where each of them is. Its methods
are whole loops or calls of the source; each is one schedule, proved to be a run of the machine, so the
results about all runs hold of it, and its contract says what the whole call comes to. Loops over Go maps pick
keys in any order.

| module | part of the system |
|---|---|
| `Common` | options, subsequences, runs of a state machine |
| `Hub`, `HubDelivery`, `HubProgress`, `HubRemoval`, `HubRuns`, `HubClients` | the desktop websocket hub: services feed one channel, one broadcaster fans out to all clients |
| `Services` | the table of UI services and the loop that dispatches inbound frames |
| `DialPool` | iOS: two dialing goroutines shared by all TCP connections |
| `WriteWorker` | iOS: the single write goroutine shared by TCP and UDP connections, and the same pattern for IP packets |
| `ConfigCache` | iOS: a config file and its etag kept against a server, with crashes |
| `ExcludeList` | iOS: the printed list of addresses outside the VPN, and its parser in the tunnel |
| `Settings`, `SettingsFile`, `SettingsWaiter` | the desktop settings: typed updates, key migration, persistence, waiting for a value |
| `Relay` | the two copy loops of the byte relay |
| `IdleTimer` | iOS: the UDP idle timer |
| `AppExit` | desktop shutdown |

## Where the code falls short of what one would expect

Each of these is stated with the exact condition, and the condition is proved, not assumed.

- A client of the hub can be sent messages that were put before it joined. It is, exactly when the
  service still had something deliverable queued or in flight at the join (`HubDelivery.Drained`);
  never more than 1002 of them (`HubDelivery.OfferedFromBeforeJoin`, `HubDelivery.BeforeJoinExample`).
- A 304 does not always mean that the config file is current: if the server's current version is
  empty, opening it again puts the embedded config in its place while the tag stays
  (`ConfigCache.NotModifiedMeansCurrent`, `ConfigCache.EmptyVersionExample`).
- In that same situation a 200 with the same tag writes the empty version to global.yaml, memory keeps
  the embedded config, and no update is reported (`ConfigCache.GlobalAgreesInEveryRun`,
  `ConfigCache.SameTagSameContent`, `ConfigCache.RepeatedEmptyExample`).
- On the proxies path an empty update or hardcoded proxies are written and not adopted, so memory
  and file differ until the file is opened again (`ConfigCache.ProxiesAgreeExactly`,
  `ConfigCache.ProxiesDifferExample`).
- Two simultaneous writes on one TCP connection can swap results, from every state in which the second
  is about to be queued, as long as the connection is open or a result still lies in its channel
  (`WriteWorker.SwapPossibleExactly`, `WriteWorker.SwappedResultExample`). Two on UDP or on the packet
  writer cannot.
- `GetInt64Eventually` can return zero, although its comment promises another value than the default: it
  does when a setter stores zero while it waits, and nothing but a setter can make it
  (`SettingsWaiter.PositiveUnlessSet`, `SettingsWaiter.AnyValueCanBeTheAnswer`).
- `SetUserIDAndToken` can store a positive user ID and leave a waiter for it blocked as long as the UI's
  channel is full, because the UI is told between the two names (`SettingsWaiter.SetterBlocksExactly`,
  `SettingsWaiter.CalledWhenBlocked`, `SettingsWaiter.KeptWaitingExample`).
- `uiMap` panics exactly when the entry that counts in the settings file, for a bool key omitted when
  empty, is neither bool nor nil and the key was not set since (`SettingsFile.UiMapPanicsExactly`,
  `SettingsFile.PanicExample`); never on a file the program wrote itself
  (`SettingsFile.OwnFilesNeverPanic`). It shows a user ID of zero, since the stored `int64(0)` is not
  equal to the `int` 0 it is compared with (`SettingsFile.NumberShownExactly`,
  `SettingsFile.ZeroShownExample`), and leaves out lists from a file until they are set again
  (`SettingsFile.ListShownExactly`, `SettingsFile.HiddenListExample`).
- The relay drops the bytes a read returns together with an error (`Relay.LostExactly`,
  `Relay.LosingExample`).
- An empty proxy host, an empty masquerade address after a non-empty one, a comma out of place in either,
  or no masquerade address at all gives the tunnel a route with an empty address
  (`ExcludeList.EmptyRouteExactly`, `ExcludeList.EmptyHostExample`, `ExcludeList.GapExamples`).
- A registration that is refused as a duplicate has already sent its hello message to all clients
  (`Services.UiChannel.Register`).

## Model

| member | source | states |
|---|---|---|
| `HubDelivery.EveryBroadcastAccountedFor` | desktop/ws/ws.go:113-142 | In every reachable state, for every client: taken plus queued is what it was offered minus what was dropped, an offer is dropped only when 1000 frames were queued at that send, and the offers are the broadcasts since it joined, in order, all of them while it stays connected |
| `HubDelivery.EndToEnd` | desktop/ws/service.go:53-88 | In every reachable state, for every client and every service, what the client took and has queued is an order-preserving subsequence of the puts of that service that were not broadcast before it joined |
| `HubDelivery.NothingInvented` | desktop/ws/service.go:226-235 | Everything a client took or has queued from a service carries that service's type and the body of the put it is tagged with |
| `HubDelivery.OfferedFromBeforeJoin` | desktop/ws/ws.go:94-104 | For every run through a join: what the client is offered of a service includes a message put before the join exactly when the service was not drained at the join, that message comes first, and at most 1002 such messages can be outstanding |
| `HubDelivery.BeforeJoinExample` | desktop/ws/ws.go:123-136 | A concrete run in which the only message is put before the client joins and ends up queued for it: "since the client joined" is not what the code guarantees |
| `HubDelivery.OffersInOrder` | desktop/ws/ws.go:125-136 | The puts of a service offered to a client are a contiguous stretch of its deliverable puts, starting after those broadcast before the join |
| `HubDelivery.StepKeepsFanout` | desktop/ws/ws.go:113-211 | Every step of every goroutine keeps the fan-out invariant of all clients |
| `HubDelivery.StepKeepsPipeline` | desktop/ws/service.go:53-88 | Every step keeps, per service, log plus in flight equal to the deliverable puts consumed so far |
| `Hub.StepKeepsOwnership` | desktop/ws/ws.go:94-169 | Every step keeps ownership: a client channel is open exactly when the client is filed under its own id, and no step sends on or closes a closed channel |
| `HubProgress.ChannelsOwned` | desktop/ws/ws.go:94-169 | In every reachable state a client channel is open exactly when its client is in conns, ids are unique, positive and at most nextId, and no closed channel was ever sent on or closed again |
| `HubProgress.NoStepReopens` | desktop/ws/ws.go:154-169 | A closed client channel stays closed and is never offered another frame |
| `HubProgress.BroadcasterNeverStuck` | desktop/ws/ws.go:123-141 | However many clients are stalled or dead, with a message offered or a removal queued the broadcaster can step, if need be after the one holder of the mutex has |
| `HubProgress.BroadcasterReturns` | desktop/ws/ws.go:123-141 | Every own step brings the broadcaster closer to its select, and no step of anybody else changes where it is |
| `HubProgress.MutexNeverHeldAcrossChannelUse` | desktop/ws/ws.go:144-161 | Whoever holds muConns can always take its next step, which uses no channel and releases the mutex |
| `HubProgress.UnregisterNeverBlocks` | desktop/ws/service.go:168-176 | In every reachable state Unregister finds room in stopCh and the type is gone afterwards |
| `HubRemoval.DeadClientsAreQueued` | desktop/ws/ws.go:154-221 | In every reachable state a client whose writer has ended while its channel is open is queued for removal or being removed, only such clients are, and a channel is closed only if its writer has ended or by the teardown |
| `HubRemoval.DeadClientsCanBeRemoved` | desktop/ws/ws.go:137-169 | From every reachable state in which a write of a client has failed, and the hub's loop has not ended, some run closes its channel and takes its id out of conns, however many clients are stalled, dead or queued before it |
| `HubRemoval.OnlyFailedWritesAreRemoved` | desktop/ws/ws.go:213-221 | Over every run only a client whose write failed is ever reported, queued or removed by the loop |
| `HubRemoval.FailedWriteDooms` | desktop/ws/ws.go:213-219 | A failed write marks its client for removal and nobody else |
| `HubRuns.OfferedCanBeBroadcast` | desktop/ws/ws.go:123-136 | From every reachable state in which a service offers a frame and the hub's channel is open, some run broadcasts it, however busy the hub |
| `HubRuns.DirectCanBeBroadcast` | desktop/ws/service.go:123-130 | The same for what is sent straight to the hub |
| `HubRuns.PutCanBeBroadcast` | desktop/ws/service.go:53-88 | From a put on: a service at its select can hand on the oldest value that marshals, under its name and as that put |
| `HubRuns.QueuedCanBeWritten` | desktop/ws/ws.go:195-211 | From every reachable state the oldest broadcast queued for a client whose writer has not ended can be the next it writes |
| `HubRuns.HelloCanBeWritten` | desktop/ws/ws.go:195-211 | And so can the oldest hello |
| `HubRuns.HellosInOrder` | desktop/ws/ws.go:106-106 | Over every run the hellos queued for a client are those said to it, in order, that its writer has not taken |
| `HubRuns.DirectSendsAreKept` | desktop/ws/service.go:123-130 | Over every run each frame sent straight to the hub is still on offer, in the broadcaster's hand, or broadcast, each once |
| `HubRuns.RegisterThenUnregister` | desktop/ws/service.go:136-176 | A registered service is found under its type, new and empty; unregistering it tells exactly it to stop, which its loop can do at its select |
| `HubClients.AnyOrderFansOut` | desktop/ws/ws.go:130-136 | Whatever order the cloned map is ranged over, the sends of one broadcast come to one non-blocking send to each client in the clone |
| `HubClients.ClientChannels.constructor` | desktop/ws/ws.go:51-70 | A new hub is the initial state |
| `HubClients.ClientChannels.Join` | desktop/ws/ws.go:94-104 | Registration does what the join step says: a fresh connection under a fresh id |
| `HubClients.ClientChannels.ClonedConns` | desktop/ws/ws.go:144-152 | The clone equals conns |
| `HubClients.ClientChannels.WriteToAll` | desktop/ws/ws.go:125-136 | Handling a message sends it, without blocking, to exactly the registered clients |
| `HubClients.ClientChannels.SendToEach` | desktop/ws/ws.go:130-136 | Each registered connection is sent the message if it has room; no other connection changes |
| `HubClients.ClientChannels.Offer` | desktop/ws/ws.go:131-135 | One select with a default: queued if fewer than 1000 are held, dropped otherwise |
| `HubClients.ClientChannels.LockedRemoveConn` | desktop/ws/ws.go:154-161 | Removing a connection is the removal step, also when it was removed before |
| `HubClients.ClientChannels.DoRemoveConn` | desktop/ws/ws.go:163-169 | Closes an open channel, keeps what is queued in it, and deletes its id |
| `HubClients.ClientChannels.CloseAll` | desktop/ws/ws.go:114-121 | The teardown is the machine's: every channel is closed once while the map shrinks under the range |
| `HubClients.ClientChannels.CloseEach` | desktop/ws/ws.go:117-119 | conns ends empty, every channel closed, queues kept |
| `HubClients.AllClosed` | desktop/ws/ws.go:114-121 | From an owned state the teardown never closes twice |
| `HubClients.WsConn.Write` | desktop/ws/ws.go:195-221 | The whole write loop, whatever cases the select takes: an initial part of each channel is taken, in order and each frame once, until a write fails or the channel is found closed and empty; a run of the machine that touches no other client |
| `HubClients.WsConn.TakeTurn` | desktop/ws/ws.go:197-209 | One turn of the select is the corresponding take, or the end of the loop on a closed empty channel |
| `HubClients.TurnRuns` | desktop/ws/ws.go:195-221 | A turn of the writer is one or two steps of the machine |
| `HubClients.Sender.WriteAll` | desktop/ws/service.go:53-88 | The loop over any number of values: what is handed to the hub is exactly those that marshal, in put order, each once, with the body of its put and the name of the service |
| `HubClients.Sender.TakeTurn` | desktop/ws/service.go:53-88 | One turn of the select: a stop ends the loop; a value that marshals is offered under the type of the service; one that does not is skipped |
| `Services.UiChannel.ReadLoop` | desktop/ws/service.go:178-213 | For every log of inbound frames, each service is delivered exactly its own well-formed frames, decoded, in order, and the rest is counted as rejected |
| `Services.UiChannel.Dispatch` | desktop/ws/service.go:179-212 | A frame that announces a registered type and decodes adds exactly its message to that inbox and is not rejected; any other is rejected; every other inbox is unchanged |
| `Services.DeliveredExactly` | desktop/ws/service.go:178-213 | What a service is delivered is said by increasing positions of the log, which are all the positions of frames that announce its type and decode |
| `Services.RejectedExactly` | desktop/ws/service.go:178-213 | What is rejected is counted exactly: one for each frame that announces nothing, an unregistered type, or does not decode |
| `Services.MarshalledExactly` | desktop/ws/service.go:68-88 | The hellos sent are exactly those that marshal, each once and in order |
| `Services.UiChannel.Register` | desktop/ws/service.go:136-166 | The hellos that marshal are sent to all clients first, also by a registration that is then refused; a duplicate type leaves the table alone; otherwise a fresh empty service is filed under it |
| `Services.UiChannel.Unregister` | desktop/ws/service.go:168-176 | The type is removed, its service is told to stop once, no other service changes |
| `Services.NothingLost` | desktop/ws/service.go:178-213 | Delivered over all services plus rejected is the number received |
| `Services.OthersDoNotInterfere` | desktop/ws/service.go:184-208 | Deleting a malformed, unknown or foreign frame anywhere in the log changes nothing for a service |
| `DialPool.AtMostTwoDials` | internalsdk/ios/tcp.go:58-107 | In every reachable state at most maxConcurrentDials dials run, no call is dialed twice, a call was dialed exactly when its request was taken, and dialingConns is the number of calls in flight |
| `DialPool.OwnOutcomeOnly` | internalsdk/ios/tcp.go:64-107 | A call that returned got the outcome of the one dial of its own request, and shares its reply channels with nobody |
| `DialPool.RunsEndReturned` | internalsdk/ios/tcp.go:64-107 | Without new calls the length of every run is bounded, and where it can go no further every call has returned |
| `DialPool.NeverDeadlocked` | internalsdk/ios/tcp.go:58-107 | A call that has not returned leaves some step possible, given that dials return |
| `DialPool.EveryStepUsesUpWork` | internalsdk/ios/tcp.go:64-107 | Every step but a new call uses up finite work |
| `DialPool.StepKeepsInv` | internalsdk/ios/tcp.go:58-107 | Every step keeps the pairing of busy workers with awaiting calls and the record of dials |
| `DialPool.TcpHandler.constructor` | internalsdk/ios/tcp.go:41-62 | Starts exactly two idle workers |
| `DialPool.TcpHandler.HandleDial` | internalsdk/ios/tcp.go:64-76 | The loop over any number of requests: each is dialed once, in order, and answered with its own outcome; no other call changes and the goroutine is free again; a run of the machine |
| `DialPool.TcpHandler.HandleAll` | internalsdk/ios/tcp.go:78-112 | One schedule of any number of Handle calls, all counted before one goroutine serves them in turn: each returns the outcome of its own dial, and the counter is back where it was; a run of the machine |
| `WriteWorker.ExecutedOnceInOrder` | internalsdk/ios/thread_limiting_conn.go:30-37 | Underlying writes happen one at a time, in the order the tasks were queued, each task once |
| `WriteWorker.OwnResult` | internalsdk/ios/thread_limiting_conn.go:54-98 | A call that got a result got that of its own write, which ended between its invocation and its response (TCP: with one outstanding call per connection) |
| `WriteWorker.RealTimeOrder` | internalsdk/ios/thread_limiting_conn.go:54-98 | A call answered before another was invoked was executed before it |
| `WriteWorker.NeverDeadlocked` | internalsdk/ios/thread_limiting_conn.go:30-98 | An unanswered call leaves some step of the worker or of a caller possible, still with one call per connection |
| `WriteWorker.EveryStepUsesUpWork` | internalsdk/ios/thread_limiting_conn.go:30-98 | Every such step uses up finite work |
| `WriteWorker.RunsEndSettled` | internalsdk/ios/thread_limiting_conn.go:30-98 | Without new calls the length of every run is bounded, and where it can go no further every call is answered or panicked |
| `WriteWorker.NothingQueuedIsLost` | internalsdk/ios/ios.go:79-90 | When the worker has nothing left, also after Close, every queued task was executed |
| `WriteWorker.SwapPossibleExactly` | internalsdk/ios/thread_limiting_conn.go:54-71 | From every reachable state where a second call is about to be queued while another waits on the same connection, some run gives it the other's result exactly when the connection is open or a result still lies in its channel |
| `WriteWorker.SecondWriteCanGetTheOthersResult` | internalsdk/ios/thread_limiting_conn.go:54-63 | The run that does it, from every such state |
| `WriteWorker.ClosedGivesErrorsOnly` | internalsdk/ios/thread_limiting_conn.go:58-61 | On a closed connection with nothing left in its channel a call only ever gets the error |
| `WriteWorker.CloseReleasesWriter` | internalsdk/ios/thread_limiting_conn.go:58-71 | Closing a connection lets a waiting write with nothing in its channel return the error at once, and it never gets anything else |
| `WriteWorker.StepKeepsInv` | internalsdk/ios/thread_limiting_conn.go:30-98 | Every step keeps order, timing, ownership of replies and that no reply is lost |
| `WriteWorker.Worker.constructor` | internalsdk/ios/thread_limiting_conn.go:22-28 | A new worker is idle with an empty queue |
| `WriteWorker.SwappedResultExample` | internalsdk/ios/thread_limiting_conn.go:54-63 | A concrete run from the start in which the second of two writes on a connection gets the first one's result |
| `WriteWorker.TurnIsEnabled` | internalsdk/ios/thread_limiting_conn.go:34-36 | From every reachable state a turn of the loop never blocks on handing over its result |
| `WriteWorker.Worker.Work` | internalsdk/ios/thread_limiting_conn.go:30-37 | The loop over the whole queue, from every reachable state: it never blocks, executes every queued task once and in order, and each caller with its own channel has its own result; a run of the machine |
| `WriteWorker.Worker.Write` | internalsdk/ios/thread_limiting_conn.go:54-63 | One schedule, on an open connection with no other write under way and an idle worker: a whole TCP write behind whatever is queued returns the result of its own underlying write |
| `WriteWorker.Worker.WriteFrom` | internalsdk/ios/thread_limiting_conn.go:90-98 | One schedule, with an idle worker: a whole UDP or adapter write behind whatever is queued returns the result of its own underlying write, or panics exactly when the adapter was closed (ios.go:66-77) |
| `WriteWorker.Worker.CloseAdapter` | internalsdk/ios/ios.go:79-90 | After Close every accepted request is still executed and answered, and only then does the goroutine end |
| `ConfigCache.TagNeverAheadOfConfig` | internalsdk/ios/config.go:282-311 | In every run with crashes anywhere, a stored tag of version k means that the stored config is version k or newer, or the embedded one put in place of an empty version |
| `ConfigCache.NotModifiedMeansCurrent` | internalsdk/ios/config.go:313-343 | A 304 means that the file is the server's current version exactly when that version is not empty |
| `ConfigCache.EmptyVersionExample` | internalsdk/ios/config.go:228-237 | A concrete run to a 304 with the embedded config on disk: an empty version is replaced on open while its tag stays |
| `ConfigCache.SameTagSameContent` | internalsdk/ios/config.go:310-310 | A 200 that repeats the tag repeats what was loaded exactly when the current version is not empty; if it is, the embedded config was loaded |
| `ConfigCache.GlobalAgreesInEveryRun` | internalsdk/ios/config.go:228-311 | In every run with crashes, whatever the server answers: memory and global.yaml agree after updateGlobal, except when the answer is an empty version whose tag is stored already and an empty file parses to something else than memory holds |
| `ConfigCache.RepeatedEmptyExample` | internalsdk/ios/config.go:254-310 | A reachable state and a 200 after which the file is empty, memory holds the embedded config and no update is reported |
| `ConfigCache.OtherStepsAreTheCode` | internalsdk/ios/config.go:228-343 | Opening, a 304 and a failed fetch do to files, tag and memory what those steps of the crash model do |
| `ConfigCache.UpdateIsTwoWrites` | internalsdk/ios/config.go:299-302 | An update of the global config is the two write steps of the crash model, disk by disk: the config first, then the tag |
| `ConfigCache.FetchedExactly` | internalsdk/ios/config.go:346-391 | Something is fetched exactly from a 200 whose body unpacks and parses, under the server's tag or, without one, the digest; unchanged is exactly a 304 |
| `ConfigCache.StepKeepsInv` | internalsdk/ios/config.go:228-311 | Every step, crashes included, keeps the relation of file, tag, memory and server |
| `ConfigCache.GlobalAgreesExactly` | internalsdk/ios/config.go:254-264 | After every outcome the config in memory is the parse of global.yaml, unless a 200 repeated the tag with content that parses to something else; exactly then not |
| `ConfigCache.UpdatedExactlyWhenTagChanged` | internalsdk/ios/config.go:254-311 | An update is reported exactly when the stored tag changed; only bytes that parsed were written; no other file changes |
| `ConfigCache.ProxiesAgreeExactly` | internalsdk/ios/config.go:266-311 | On the proxies path memory and disk agree exactly when what was written, hardcoded proxies included, was adopted or says the same |
| `ConfigCache.ProxiesDifferExample` | internalsdk/ios/config.go:266-275 | A concrete response after which they differ: empty proxies are written and not adopted |
| `ConfigCache.Configurer.OpenConfig` | internalsdk/ios/config.go:228-252 | The file exists afterwards, is the embedded config if it was missing or empty, and memory is its parse; fails exactly when it does not parse |
| `ConfigCache.Configurer.UpdateFromWeb` | internalsdk/ios/config.go:282-311 | A failed fetch and a 304 write nothing; otherwise the config is written first and the tag second, so that on every disk on the way a tag that was not there before comes with its bytes, and no other file changes; hardcoded proxies always win |
| `ConfigCache.Configurer.UpdateGlobal` | internalsdk/ios/config.go:254-264 | Memory, files and report after an update of the global config |
| `ConfigCache.Configurer.UpdateProxies` | internalsdk/ios/config.go:266-280 | The same for the proxies: an empty update is written but not adopted |
| `ConfigCache.Configurer.Configure` | internalsdk/ios/config.go:101-157 | Fails exactly when an opened file does not parse; asks for reconfiguration exactly when a file was missing, the tag of the global config changed, or proxies were adopted; each config returned is the parse of its file afterwards, with the exact exceptions; and on every disk on the way a new global tag comes with its config |
| `ExcludeList.RoundTrip` | internalsdk/ios/config.go:152-175 | For every order of the maps, the non-empty parts of the printed list are the non-empty proxy hosts, last first, then the non-empty masquerade addresses |
| `ExcludeList.RoundTripKeepsAll` | internalsdk/ios/config.go:152-175 | With non-empty comma-free hosts nothing is lost, added or merged, as a multiset |
| `ExcludeList.EveryAddressCounts` | internalsdk/ios/config.go:152-175 | Counted one by one: every address is among the parts as often as it is a proxy's address, a proxy's multiplexed address and a masquerade's |
| `ExcludeList.EmptyRouteExactly` | ios/Tunnel/PacketTunnelProvider.swift:227-231 | For all configs the tunnel gets a route with an empty address exactly when some proxy host has a gap, or no masquerade address is non-empty, or one with a gap is or follows a non-empty one; a gap is being empty, beginning or ending with a comma, or having two in a row |
| `ExcludeList.EmptyPartExactly` | ios/Tunnel/PacketTunnelProvider.swift:227-227 | Split on commas, a text has an empty part exactly when it has such a gap |
| `ExcludeList.EmptyHostExample` | internalsdk/ios/config.go:165-175 | Such an input: a proxy with an empty host |
| `ExcludeList.GapExamples` | internalsdk/ios/config.go:153-161 | Two more: an empty masquerade address after another, and one that ends in a comma |
| `ExcludeList.IpsToExclude` | internalsdk/ios/config.go:152-175 | The two loops print the masquerades first to last and put each proxy host in front |
| `ExcludeList.AddMasquerades` | internalsdk/ios/config.go:153-161 | One provider's addresses are appended, with no leading comma |
| `ExcludeList.AddProxies` | internalsdk/ios/config.go:165-175 | The two addresses of each proxy are put in front, in order |
| `ExcludeList.AddHost` | internalsdk/ios/config.go:166-170 | An empty address adds nothing, any other its host |
| `ExcludeList.LoadExcludedRoutes` | ios/Tunnel/PacketTunnelProvider.swift:216-239 | The two fixed routes, then one per part of the file |
| `Settings.ToCamelCase` | desktop/app/settings.go:182-190 | In every order over the key table the result is the migrated map |
| `Settings.MigrationIsUnique` | desktop/app/settings.go:182-190 | There is one migrated map, so any two orders agree |
| `Settings.MigrationIsIdempotent` | desktop/app/settings.go:182-190 | Migrating a migrated map changes nothing |
| `Settings.MigrationMovesAliases` | desktop/app/settings.go:182-190 | A lower-case alias moves to its canonical key and wins over what was there; keys that are neither stay |
| `Settings.UiKeepsTypes` | desktop/app/settings.go:241-336 | For every sequence of UI messages no key outside the table changes, and keys that held bools hold bools |
| `Settings.Settings.Read` | desktop/app/settings.go:241-277 | The loop over messages and over their entries, in any order: the specified updates, after each the map for the UI, the file following; it stops exactly where uiMap panics, which it never does on a store whose bool keys hold bools |
| `Settings.Settings.ReadOne` | desktop/app/settings.go:251-273 | One message sets exactly its acceptable entries with a known key |
| `Settings.Settings.SetTyped` | desktop/app/settings.go:279-336 | A value of the wrong type changes nothing; one of the right type is stored as itself, a number as its int64, a list as its printed items, nil as the empty array, and saved |
| `Settings.LastEntryCounts` | desktop/app/settings.go:241-336 | Over any messages a key holds what the last entry of the right type said |
| `Settings.NoEntryNoChange` | desktop/app/settings.go:241-336 | Without such an entry it holds what it held before |
| `Settings.ShownExactly` | desktop/app/settings.go:381-417 | What the UI is shown: a key not omitted when empty always; of the others a true bool, a non-empty string, an array of strings, a number other than the int 0, never nil |
| `Settings.PersistedExactly` | desktop/app/settings.go:367-377 | Exactly the persisted keys are saved, with their values |
| `Settings.Settings.SetVals` | desktop/app/settings.go:697-709 | All values are stored, nothing else changes, and the file is saved |
| `Settings.Settings.Save` | desktop/app/settings.go:338-365 | The file holds the persisted part of the map |
| `Settings.Settings.MapToSave` | desktop/app/settings.go:367-377 | Exactly the persisted keys |
| `Settings.Settings.UiMap` | desktop/app/settings.go:381-417 | Exactly the entries to show, or the panic of the type assertion |
| `SettingsFile.RestartKeepsSettings` | desktop/app/settings.go:137-190 | Whatever file came first and however its keys were spelt: after any number of sessions of loading and setting, in the next one too, another restart changes no getter of a persisted key about which that file said a storable value; all but the salt |
| `SettingsFile.SetIsGot` | desktop/app/settings.go:616-680 | What a setter set last is what its getter returns, at once and after a restart |
| `SettingsFile.GettersOtherwise` | desktop/app/settings.go:616-680 | What the getters return for a missing key, for another type, and for the ints and lists a load leaves |
| `SettingsFile.OwnFilesNeverPanic` | desktop/app/settings.go:137-190 | From no file or one the program wrote, over any sessions, uiMap never panics, neither after a load nor after any setter calls, whatever salt they save |
| `SettingsFile.SessionsKeepName` | desktop/app/settings.go:137-190 | Over any sessions what the file says about a persisted key stays a storable value |
| `SettingsFile.EffectiveAfterSave` | desktop/app/settings.go:367-377 | A saved file says about a persisted key what the store held |
| `SettingsFile.SessionsKeepOwnFile` | desktop/app/settings.go:137-175 | Every session leaves a file of persisted, well-typed keys that holds every persisted default key |
| `SettingsFile.SavedValueSurvives` | desktop/app/settings.go:358-377 | One key through save and load, for any codec that loses only integer width and array typing |
| `SettingsFile.SettersKeepSound` | desktop/app/settings.go:697-709 | Setter calls keep the default keys, storable values, and bools in bool keys |
| `SettingsFile.UiMapPanicsExactly` | desktop/app/settings.go:381-417 | For every file and every later setter calls: uiMap panics exactly when, for some bool key omitted when empty, the file's entry that counts, alias first, is neither bool nor nil and no call has set the key |
| `SettingsFile.NumberShownExactly` | desktop/app/settings.go:409-412 | A number key omitted when empty is shown exactly when it was set, or its entry is neither nil nor the int 0, or it is the user ID and not nil |
| `SettingsFile.ListShownExactly` | desktop/app/settings.go:405-408 | A list key omitted when empty is shown exactly when it was set, or already is an array of strings |
| `SettingsFile.PanicExample` | desktop/app/settings.go:397-400 | A file with a string under an alias of userPro makes uiMap panic |
| `SettingsFile.ZeroShownExample` | desktop/app/settings.go:153-160 | With no file a user ID of zero is shown |
| `SettingsFile.HiddenListExample` | desktop/app/settings.go:405-408 | A list in the file is returned by its getter and not shown |
| `SettingsFile.EffectiveIsLoaded` | desktop/app/settings.go:137-190 | What a key holds after loading any file: the alias's entry first, then its own, then the default |
| `SettingsFile.UiMessagesAreSets` | desktop/app/settings.go:241-336 | What a sequence of UI messages does is what some sequence of setter calls does |
| `SettingsFile.LoadSettingsFrom` | desktop/app/settings.go:137-175 | The loaded map is defaults overlaid with the file, migrated, and stamped with device ID, user ID type, version and dates; an unreadable file leaves the defaults |
| `SettingsFile.SettingMetaIsOk` | desktop/app/settings.go:77-115 | No two names of the source's table differ only in case |
| `SettingsFile.SourceTableIsGood` | desktop/app/settings.go:77-115 | The source's table and defaults meet what the results above ask of a table |
| `SettingsFile.SettingDefaultsAreOk` | desktop/app/settings.go:192-216 | No default key is an alias of another name |
| `SettingsWaiter.NoLostWakeUp` | desktop/app/settings.go:697-730 | In every interleaving, once a setter that wrote after the waiter registered has called it, a blocked waiter can return, with a value some setter wrote under that name |
| `SettingsWaiter.ReadNeverFallsInAGap` | desktop/app/settings.go:713-730 | From the read on, over every run: a waiter that blocks is released once such a setter finishes |
| `SettingsWaiter.NobodyLeftBehind` | desktop/app/settings.go:697-730 | In every reachable state where a positive value is stored and no setter has still to call the waiter, a blocked waiter can return, whether that value was written before or after it registered |
| `SettingsWaiter.PositiveUnlessSet` | desktop/app/settings.go:711-730 | In every reachable state an answer is an int64 that some setter wrote under the name, or a positive integer that was stored there when the waiter read; an error means that some setter wrote something else there |
| `SettingsWaiter.AnyValueCanBeTheAnswer` | desktop/app/settings.go:711-730 | For every value, zero included, a reachable state in which it was the answer |
| `SettingsWaiter.SetterBlocksExactly` | desktop/app/settings.go:697-752 | An unfinished setter cannot step exactly when it is at the send to the UI and that channel is full |
| `SettingsWaiter.CalledExactly` | desktop/app/settings.go:740-747 | At every moment a setter has called, of the waiters that registered before its write, exactly those it no longer has to |
| `SettingsWaiter.CalledWhenBlocked` | desktop/app/settings.go:740-752 | When it is at the send to the UI these are exactly the waiters of the names it is done with |
| `SettingsWaiter.KeptWaitingExample` | desktop/app/settings.go:593-595 | A reachable state of SetUserIDAndToken: the positive user ID is stored, its waiter is blocked and not called, and the setter is stuck at the full UI channel after the token |
| `SettingsWaiter.StepKeepsInv` | desktop/app/settings.go:697-752 | Every step keeps what is filed, called and pending consistent |
| `SettingsWaiter.Store.constructor` | desktop/app/settings.go:192-220 | No listeners, no UI |
| `SettingsWaiter.Store.GetInt64Eventually` | desktop/app/settings.go:713-730 | One schedule, with a single setVals that comes in after the read: a stored positive integer is returned at once; otherwise the call returns exactly the int64 that is set, or the cast error for another type, as soon as the setter is past its name |
| `SettingsWaiter.Store.SetVals` | desktop/app/settings.go:697-709 | The whole map is written before any listener is called; then, name by name, in any order, every listener is called before the UI is told; stops only at a full UI channel; the UI gets one message per name; a run of the machine |
| `SettingsWaiter.Store.OnChange` | desktop/app/settings.go:740-752 | Every listener of the name is called with its value and nobody else; then the UI is told if there is room |
| `Relay.DeliveredIsPrefix` | internalsdk/relay.go:148-183 | In every run each side gets a prefix of the bytes read from the other; while a loop reads, all of them; at most 2048 bytes are ever behind towards the upstream |
| `Relay.BothClosed` | internalsdk/relay.go:148-183 | Once both loops ended both connections are closed |
| `Relay.LostExactly` | internalsdk/relay.go:152-182 | Over every run to the end of a loop, each way: the other side got every byte read exactly when no read returned bytes along with its error and no write stopped part way |
| `Relay.DeliveredExactly` | internalsdk/relay.go:148-183 | Over every run, each way, the other side got exactly the first bytes of all that was read, as many as the writes handed over |
| `Relay.ClosedExactly` | internalsdk/relay.go:148-183 | Over every run each connection is closed exactly when reading the other one failed or the loop that reads it has ended |
| `Relay.EndsExactly` | internalsdk/relay.go:152-182 | A loop is ending exactly when one of its reads or writes failed |
| `Relay.LosingExample` | internalsdk/relay.go:153-157 | A concrete run that loses the only byte read |
| `Relay.RunIsTold` | internalsdk/relay.go:148-183 | What is read, in hand and lost follows from the reads and writes of the run alone |
| `Relay.StepKeepsInv` | internalsdk/relay.go:148-183 | Every step keeps read equal to delivered, held and lost |
| `Relay.Tunnel.constructor` | internalsdk/relay.go:148-151 | Two open connections and a 2048-byte buffer |
| `Relay.Tunnel.CopyToUpstream` | internalsdk/relay.go:148-165 | Whatever the connections do, the loop over the reused buffer is a run of the machine and ends with the downstream closed |
| `Relay.Tunnel.Fill` | internalsdk/relay.go:153-157 | A read fills the start of the buffer; an error closes the upstream |
| `Relay.Tunnel.Send` | internalsdk/relay.go:159-163 | Only the first n bytes are sent, never what an earlier read left behind |
| `Relay.Tunnel.Leave` | internalsdk/relay.go:149-149 | The deferred close |
| `Relay.Tunnel.CopyFromUpstream` | internalsdk/relay.go:167-183 | The other loop likewise is a run of the machine |
| `IdleTimer.DrainNeverBlocks` | internalsdk/ios/udp.go:91-94 | In every run the drain after a failed Stop finds its tick, or the timer is about to send it |
| `IdleTimer.NoStaleTick` | internalsdk/ios/udp.go:91-97 | No tick of an earlier arming survives a reset |
| `IdleTimer.ClosesOnceAndOnlyWhenIdle` | internalsdk/ios/udp.go:99-111 | idleTiming closes at most once, and only a full idle timeout after the start or the last event it consumed |
| `IdleTimer.IdleGetsClosed` | internalsdk/ios/udp.go:99-111 | From every reachable state past the deadline some run closes the connection with no more time passing |
| `IdleTimer.UdpCallbacks.constructor` | internalsdk/ios/udp.go:90-90 | The timer is armed for a full timeout |
| `IdleTimer.UdpCallbacks.StopTimer` | internalsdk/ios/udp.go:92-92 | What Stop returns and leaves behind, in both timer runtimes |
| `IdleTimer.UdpCallbacks.ResetIdleTimer` | internalsdk/ios/udp.go:91-97 | Re-arms, or goes on to drain |
| `IdleTimer.UdpCallbacks.IdleTiming` | internalsdk/ios/udp.go:89-111 | One schedule, with at most one event at each wake-up: over any line of passing time and events the whole loop closes the upstream exactly when a wake-up finds a full timeout since the last event and the tick is taken; a run of the machine, in both timer runtimes |
| `IdleTimer.UdpCallbacks.Select` | internalsdk/ios/udp.go:91-111 | One turn with its drain: closed for good, or armed for a full timeout with no tick left |
| `AppExit.ExactlyOneExitReturnsTrue` | desktop/app/app.go:457-463 | At most one Exit returns true, and exactly one once all calls have returned |
| `AppExit.LosersHaveAWinner` | desktop/app/app.go:457-463 | An Exit returns false only if another won |
| `AppExit.EachFuncStartedOnce` | desktop/app/app.go:497-511 | The functions present at the snapshot are started at most once each, in order, and all of them by the time the goroutine waits |
| `AppExit.ExitedSetOnceAndLast` | desktop/app/app.go:465-511 | exited is set at most once, and only after all of them finished or the timer fired |
| `AppExit.WinnerGoesOn` | desktop/app/app.go:485-491 | The winner is never stuck, the wait group never negative, and it reaches zero only when all functions finished |
| `AppExit.App.constructor` | desktop/app/app.go:457-463 | Nothing has exited |
| `AppExit.App.Exit` | desktop/app/app.go:457-511 | One schedule of the whole call, with functions added after the snapshot and some returning in time: only the first ever returns true; it starts exactly the functions present before it, each once, and sets exited once, after all returned or the timer fired; any other call changes nothing |
| `AppExit.App.StartExitFuncs` | desktop/app/app.go:497-509 | The loop starts all functions of the snapshot, one by one, as a run of the machine |
| `AppExit.App.CollectFuncs` | desktop/app/app.go:500-502 | Snapshot and count under the read lock |
| `AppExit.App.StartNext` | desktop/app/app.go:503-508 | One goroutine per function |

## Left out

- Scheduling fairness: progress is stated as "some step is possible" together with a measure that every step decreases, not as eventual completion.
- A `select` with several ready cases may take any of them; Go's pseudo-random choice is not modelled further.
- Closing the hub's `Out`: nothing in the repository does it, so a sender that panics on the closed channel is not modelled; the broadcaster's reaction is (`CloseOut`, `CloseAll`).
- Closing a service's own `Out`, which only tests do.
- The client-to-hub direction before `readLoop`: the websocket read loop and its 100-slot channel. `readLoop` is proved for every log of frames and a fixed service table; a full service inbox that blocks it is not modelled.
- JSON, YAML, gzip, md5, websocket framing, HTTP and sockets are opaque codecs, or steps that may fail.
- `SendMessage` reads the service table without its lock; the read is taken as atomic.
- Hello messages appear as direct sends, without the function that makes them.
- `proxiedTCPHandler.copy`, its close timers and the `upstreams` maps; `Handle` before the dial (reverse lookup) and after it. Dials are assumed to return, which their 30-second context promises.
- safechannels is not part of this model: its one-slot channel is taken to keep a buffered value when closed and to drop later ones.
- WriteWorker.OwnResult: for TCP it assumes one outstanding call per connection, because without it the statement is false of the code; UDP and the packet writer need no assumption.
- `closeOnce` is modelled by closing being idempotent.
- Config files: each write is atomic and succeeds, and one process runs `configure` at a time; `writeUserConfig`, the geolookup goroutine and `HasGlobalConfig` are not modelled.
- ConfigCache.TagNeverAheadOfConfig: covers global.yaml only, because the proxies path can write bytes nobody parsed.
- The crash model has a server that gives every version a new non-empty tag and sends only content that parses.
- `net.SplitHostPort` is opaque: an address is given by the host it splits into. The exclude file between app and tunnel is taken to hold what was printed; a failure to read it is not modelled.
- Settings: two `setVals` at once can write the file in the other order than the map, so persistence is proved for one at a time. The launch file and logging are left out. What the salt's getter returns after a restart depends on the codec and is not stated.
- Settings: a list whose items are not strings is known only by how its items print, which is what both the getter and the setter use.
- SettingsWaiter: the save between the write and the notifications is no step, since nothing it touches is shared here; getlantern/eventual is not part of this model: a value set is taken to be there for the waiter, the latest one winning.
- Relay: setting up the connections, and timeouts, which are failed reads and writes here. A closed connection may still answer reads and writes in any way, which allows more runs than the code has.
- IdleTimer: the other calls that close the upstream (a failed write in `OnReceive`, a dial timeout), dialing, and the clean-up of `upstreams`, which uses another key than the insertion.
- SettingsWaiter: listeners other than waiters (desktop/app/app.go:311), which the source calls in the same loop and which could block a setter, are not modelled.
- DialPool.TcpHandler.HandleAll: is one schedule, in which all calls are counted before one goroutine serves them; what holds of all schedules is stated by the lemmas on reachable states.
- WriteWorker.Worker.Write: is one schedule, on an open connection with no other write under way; what holds of all schedules is stated by the lemmas on reachable states.
- WriteWorker.Worker.WriteFrom: is one schedule, from an idle worker; what holds of all schedules is stated by the lemmas on reachable states.
- SettingsWaiter.Store.GetInt64Eventually: is one schedule, with one setVals that comes in after the read; what holds of all schedules is stated by the lemmas on reachable states.
- AppExit.App.Exit: is one schedule, in which functions are added after the snapshot; what holds of all schedules is stated by the lemmas on reachable states.
- IdleTimer.UdpCallbacks.IdleTiming: is one schedule, with at most one event at each wake-up; what holds of all schedules is stated by the lemmas on reachable states.
- Services.UiChannel.Register: a hello that blocks at the hub is not modelled.
- AppExit: logging, crash reports, `recordStopped`, and readers of `exited`. The timer may fire at any time after it is set.
- SRP login, the session, VPN and pro models, bandwidth accounting, UI, generated code and platform runners.
