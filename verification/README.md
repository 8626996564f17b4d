# Verified models of nacos-sdk-go

nacos-sdk-go is the Go client of the Nacos configuration and naming service. Under its network code
it runs several stateful protocols: one worker goroutine keeps a gRPC connection alive, a listener
loop keeps configurations in step with the server, a cache announces changes of service instances
to subscribers, and a reconnect replays what the client had subscribed and registered. This project
models those protocols and the self-contained algorithms beside them, and proves what they promise.

Pure code is modelled by functions, code that updates fields, maps and buffers by classes and
methods proved against those functions. The network, clocks, random draws, MD5, AES, base64 and the
key management service are parameters; only what the source relies on is known of them.

| file | part of the client |
|---|---|
| `RpcClient.dfy` | the connection state machine, one step per shared-memory access, any interleaving |
| `RpcEvents.dfy`, `RpcRecovery.dfy` | what its listeners are told; when it reconnects, its mutex and its channels |
| `ConfigSpec.dfy`, `ConfigConvergence.dfy`, `ConfigBatching.dfy` | the config listen protocol on values, what its rounds achieve and list |
| `ConfigInstance.dfy` | a run from a new client into a round with one task down |
| `ConfigClient.dfy` | the config client, updating its map and the shared listener records in place |
| `NamingModel.dfy`, `ServiceKeys.dfy` | instances and services; composite keys and their split |
| `ClusterSelector.dfy` | cluster selectors and their canonical text |
| `NamingCacheSpec.dfy`, `NamingCache.dfy` | the service cache and callback registry, on values and in place |
| `NamingRedo.dfy`, `NamingGrpc.dfy` | the redo caches, on values and in place |
| `NamingClientSpec.dfy`, `NamingClient.dfy` | subscribing through the client and its proxy delegate, which drive registry, cache and redo together |
| `Chooser.dfy` | weighted choice of a healthy instance |
| `ConcurrentMap.dfy`, `FanIn.dfy`, `MapItems.dfy` | the sharded map against a flat map, and its goroutines |
| `Uuid.dfy`, `UuidText.dfy`, `UuidV1.dfy` | UUID bits, text codec and version 1 generator |
| `Utf8.dfy`, `AesEcb.dfy`, `EncryptionSpec.dfy`, `EncryptionRoundTrip.dfy`, `Encryption.dfy` | the encryption pipeline |
| `ServerProbe.dfy` | retry probing and round-robin tickets over the server list |
| `Wrappers.dfy`, `Sequences.dfy` | option and result types; bytes and concatenation |

Where the code does not do what its comments or a reader would expect, the model follows the code
and the difference is a theorem:

- The retry loop reaches every server if and only if their number is a power of two
  (`ServerProbe.ReachesEveryIffPowerOfTwo`).
- The comment on `decodeBraced` and the grammar above `UnmarshalText` promise braced texts without
  dashes; they are refused (`UuidText.BracedHashLikeRefused`).
- An answer to one listen task marks entries of every other task as synced, so the entries of a
  task whose request failed look up to date (`ConfigConvergence.DownTaskLooksSynced`,
  reached by `ConfigInstance.DownTaskInstance`).
- A stream reader that has read the abandon flag before its connection is replaced can still turn
  a healthy client unhealthy (`RpcClient.StaleReaderFlipsStatus`, reached by
  `RpcClient.StaleReaderIsReached`), and so can the reader of a dial that failed after binding its
  stream, whose connection nobody ever abandons (`RpcClient.HalfOpenReaderFlipsStatus`).
- A server-list signal taken during `Start` can leave a connection open for good; only such a signal
  can (`RpcClient.SignalDuringStartLeaks`, `RpcClient.ReplacedConnectionsAreGone`).
- n tickets of `GetNextServer` hit each of n > 1 servers once if and only if the first is not
  negative and the 32-bit counter does not wrap, or only the last ticket is wrapped and n divides
  2^31 (`ServerProbe.RotationExact`).
- `Unsubscribe` finds a callback by the address of the struct it was passed in, so only the struct
  given to `Subscribe` undoes it (`NamingClientSpec.SubscribeIsUndone`,
  `NamingClientSpec.OtherStructNeverMatches`).
- A callback registered while its service is already cached is told nothing until the next change
  (`NamingCacheSpec.FirstRegistration`).
- Keys joined with `@@` come apart again if and only if `ServiceKeys.Separable` holds; a reconnect
  re-subscribes other names wrongly (`NamingClientSpec.LiveCallbacksAreRedone`).
- A query leaves its key cached for redo without a callback (`NamingClientSpec.RedoneIffLive`).
- A UUID generator whose first search for an address fails keeps the bytes it got, and later UUIDs
  carry them (`UuidV1.AddressIs`, `UuidV1.IssuedIff`).
- Content that is not UTF-8 is altered by the AES plugins, and only such content
  (`EncryptionRoundTrip.FilterRoundTrip`).

## Model

| member | source | states |
|---|---|---|
| `RpcClient.NoLostReconnect` | common/remote/rpc/rpc_client.go:287-345 | in every interleaving of Start, the worker, any request callers, stream readers and shutdowns, status UNHEALTHY, or STARTING after Start has returned, implies a thread between its swap and its send, a queued reconnect, or a worker inside reconnect before it stores RUNNING |
| `RpcClient.NotLostStep` | common/remote/rpc/rpc_client.go:413-472 | each single step of any thread keeps that property |
| `RpcClient.ThreadFrame` | common/remote/rpc/rpc_client.go:585-627 | a step of a request caller, stream reader or shutdown caller touches only its own place, the mutex, the two channels, the status as a swap allows, and the close flag |
| `RpcClient.CurrentExists` | common/remote/rpc/rpc_client.go:339-341 | at any granularity, RUNNING or a queued event implies that a current connection exists |
| `RpcClient.GroundedStep` | common/remote/rpc/rpc_client.go:443-451 | each single step keeps that property |
| `RpcClient.ReplacedConnectionsAreGone` | common/remote/rpc/rpc_client.go:443-451 | in every run in which the worker takes no server-list signal while Start has a connection or a dial left and the client is not shut down, every formerly current connection is abandoned and closed |
| `RpcClient.QuietStep` | common/remote/rpc/rpc_client.go:474-496 | each single step other than such a signal keeps the invariant behind that |
| `RpcClient.SignalDuringStartLeaks` | common/remote/rpc/rpc_client.go:310-345 | the condition is exact: after any run without such a signal, taking one lets the worker install a connection that Start overwrites without abandoning it |
| `RpcClient.OverlappingStartLeaksConnection` | common/remote/rpc/rpc_client.go:320-345 | such a run exists, so the property fails without the condition |
| `RpcClient.WorkerOvertakesStart` | common/remote/rpc/rpc_client.go:351-367 | a signal with no current connection, or whose server is gone, lets the worker go on to dial |
| `RpcClient.ReplacedStreamIsHarmless` | common/remote/rpc/grpc_client.go:265-278 | when moreover no reader sits between its flag read and its swap as its connection is abandoned, a replaced connection's stream never changes the status |
| `RpcClient.FlagRun` | common/remote/rpc/grpc_client.go:267-278 | over every run with that atomicity, a reader that may still swap belongs to a connection that is not abandoned |
| `RpcClient.StaleReaderFlipsStatus` | common/remote/rpc/grpc_client.go:267-278 | the atomicity is exact: from every reachable state that violates it, some continuation lets the replaced connection set UNHEALTHY |
| `RpcClient.StaleReaderIsReached` | common/remote/rpc/grpc_client.go:265-278 | such a state is reached from the initial one |
| `RpcClient.NeverCurrentNeverAbandoned` | common/remote/rpc/rpc_client.go:443-448 | in every interleaving a connection that has never been current is neither abandoned nor closed |
| `RpcClient.HalfOpenReaderFlipsStatus` | common/remote/rpc/grpc_client.go:229-232 | so from every reachable running state the reader of a dial that failed after binding its stream can set UNHEALTHY on its own |
| `RpcClient.HalfOpenIsReached` | common/remote/rpc/grpc_client.go:229-232 | such a state is reached |
| `RpcClient.WorkerAbandons` | common/remote/rpc/rpc_client.go:443-448 | from a dialled connection the worker can always reach the point where the old one is abandoned and closed |
| `RpcEvents.DisconnectedMeansClosed` | common/remote/rpc/rpc_client.go:474-479 | in every interleaving, shutdowns included, a DISCONNECTED event is sent only for a connection that has been current and is closed |
| `RpcEvents.LastEventIsConnected` | common/remote/rpc/rpc_client.go:413-453 | in every interleaving without a shutdown, the last event of a running client whose worker waits and whose Start has returned is CONNECTED, also as the listeners see it, and DISCONNECTED is last only while the worker goes from the old connection to the new one |
| `RpcEvents.ReplacedReportedOnce` | common/remote/rpc/rpc_client.go:443-451 | without shutdowns and signals during Start, exactly one DISCONNECTED is sent for each replaced connection and none for another |
| `RpcEvents.ConnectedCountsConnections` | common/remote/rpc/rpc_client.go:413-453 | in every run in which nobody asks for a probe, the CONNECTED events, with those about to be sent, are as many as the connections installed, so UN_REGISTER, broken streams, failed health checks and vanished servers always lead to a new connection |
| `RpcEvents.FailedProbesReconnect` | common/remote/rpc/rpc_client.go:413-453 | the same in every run in which no probe succeeds |
| `RpcRecovery.ProbeRestores` | common/remote/rpc/rpc_client.go:413-419 | asked to probe first, the worker can restore RUNNING with the same connection and send CONNECTED |
| `RpcRecovery.ProbedClientGoesOn` | common/remote/rpc/rpc_client.go:618-621 | a request that gives up, and a reset that names no server, ask for such a probe |
| `RpcRecovery.UnregisterAsks` | common/remote/rpc/rpc_client.go:600-613 | a request told that the connection is unregistered makes the client unhealthy, asks for a new connection, frees the mutex and goes on retrying |
| `RpcRecovery.GoneServerIsReplaced` | common/remote/rpc/rpc_client.go:351-367 | when the current server leaves the list the worker can replace the connection |
| `RpcRecovery.CalmStaysUp` | common/remote/rpc/rpc_client.go:498-508 | with recent or healthy checks, a listed server, succeeding requests, ending streams and resets with an unreadable port only, every run keeps the connection, RUNNING and the events as they are |
| `RpcRecovery.ShutdownCloses` | common/remote/rpc/rpc_client.go:381-385 | Shutdown can store SHUTDOWN, close the current connection and tell of it |
| `RpcRecovery.ShutdownStopsReconnect` | common/remote/rpc/rpc_client.go:455-471 | a worker whose dial fails after a shutdown closes the current connection, tells of it and stops |
| `RpcRecovery.ShutdownIsFinal` | common/remote/rpc/rpc_client.go:498-517 | once no probe, dial, announcement or Start is under way, every run stays in SHUTDOWN with the same current connection |
| `RpcRecovery.StartConnects` | common/remote/rpc/rpc_client.go:337-342 | Start in its dial loop can connect, store RUNNING and send CONNECTED |
| `RpcRecovery.ThreeRefusedDials` | common/remote/rpc/rpc_client.go:321-345 | after three refused dials Start returns with a reconnect queued |
| `RpcRecovery.MutexExcludes` | common/remote/rpc/rpc_client.go:601-609 | in every interleaving the mutex is held by exactly the one thread between lock and unlock |
| `RpcRecovery.ChannelsBounded` | common/remote/rpc/rpc_client.go:347-349 | in every interleaving both channels hold at most one message |
| `ConfigSpec.RunInvariant` | clients/config_client/config_client.go:308-361 | over every serial run of listen, cancel, push, disconnect and round: each entry sits under the key of its own fields, its md5 is that of its content, its listener's last md5 equals it, no listener sees the same md5 twice in a row, and the initializing flag is never cleared |
| `ConfigSpec.ApplyInv` | clients/config_client/config_client.go:87-104 | each call keeps that invariant |
| `ConfigSpec.RoundInv` | clients/config_client/config_client.go:425-491 | a round keeps it for any answers, any batches and any order of tasks |
| `ConfigSpec.NothingToFlush` | clients/config_client/config_client.go:530-550 | in a sound state building the batches never runs a listener |
| `ConfigSpec.FlushTells` | clients/config_client/config_client.go:530-550 | in any state whatsoever it leaves every synced entry's listener with the md5, run at most once |
| `ConfigSpec.RefreshTells` | clients/config_client/config_client.go:514-527 | in any state whatsoever a usable reply leaves the listener with the md5 of its content, run once if that is new |
| `ConfigConvergence.Convergence` | clients/config_client/config_client.go:425-491 | against a fixed server, removed configurations included, an all-sync round and one more round leave every entry synced with the server's md5; each entry that differed holds the reply's content, data key and type and its listener ran once, the others are as they were |
| `ConfigConvergence.AllSyncRound` | clients/config_client/config_client.go:437-480 | after one all-sync round an entry holds the server's md5 if and only if it did before or its own task's request succeeded |
| `ConfigConvergence.FirstRound` | clients/config_client/config_client.go:502-528 | an all-sync round with every request answered catches up every entry |
| `ConfigConvergence.SecondRound` | clients/config_client/config_client.go:470-480 | the round after that runs no listener and marks everything synced |
| `ConfigConvergence.DownTaskLooksSynced` | clients/config_client/config_client.go:470-480 | for every state and order in which some task answers, the entries of a task whose request failed end up marked synced with their old content |
| `ConfigConvergence.SyncedAfterRound` | clients/config_client/config_client.go:470-480 | after an all-sync round an entry is marked synced if and only if it was, or some task was answered whose answer did not report it, so a refreshed entry waits for another round |
| `ConfigConvergence.SyncedAfterTask` | clients/config_client/config_client.go:470-480 | the same for one task |
| `ConfigConvergence.UselessRepliesChangeNothing` | clients/config_client/config_proxy.go:124-164 | an entry whose queries get no answer, or an error other than 300, keeps its content through any round and its listener is not run |
| `ConfigConvergence.RequestsOfTask` | clients/config_client/config_client.go:437-468 | an answered task makes one batch request and one query per reported configuration |
| `ConfigInstance.DownTaskInstance` | clients/config_client/config_client.go:470-480 | a run from a new client ends in an all-sync round that marks the entry of the task that is down synced with an md5 the server does not have |
| `ConfigInstance.TwoTasksAreReached` | clients/config_client/config_client.go:355-355 | listening and cancelling from a new client reach the state of that run, with one entry in each of two tasks |
| `ConfigBatching.DisconnectedTaskIsListed` | clients/config_client/config_connection_event_listener.go:44-64 | every entry of a disconnected task that is still listened to is in its task's batch of the next round, whatever was listened to, cancelled, pushed or disconnected in between |
| `ConfigBatching.PushedEntryIsListed` | clients/config_client/config_proxy.go:211-232 | the same for every pushed entry |
| `ConfigBatching.DisconnectAddsItsTask` | clients/config_client/config_connection_event_listener.go:44-64 | after a disconnect the next round lists an entry if and only if it was unsynced or is of that task |
| `ConfigBatching.PushAddsItsEntry` | clients/config_client/config_proxy.go:211-232 | after a push, if and only if it was unsynced or is the pushed one |
| `ConfigBatching.FirstListen` | clients/config_client/config_client.go:308-361 | a configuration listened to for the first time holds its snapshot until the next round and is listed there with the snapshot's md5; without a data id or a group nothing happens |
| `ConfigBatching.StaysUnsynced` | clients/config_client/config_client.go:308-361 | between rounds an unsynced key stays unsynced, also across cancelling and listening again |
| `ConfigBatching.CancelFreeRunPacked` | clients/config_client/config_client.go:355-355 | in runs without cancellation tasks fill up one after the other |
| `ConfigBatching.BatchesBounded` | clients/config_client/config_client.go:530-550 | in such runs no batch exceeds 3000 |
| `ConfigBatching.BatchKeysDistinct` | clients/config_client/config_client.go:530-550 | a batch names as many keys as it has lines |
| `ConfigClient.Client.ListenConfig` | clients/config_client/config_client.go:308-361 | the map and the new listener record hold what the specification of listening says |
| `ConfigClient.Client.CancelListenConfig` | clients/config_client/config_client.go:297-306 | the entry is gone and nothing else changed |
| `ConfigClient.Client.RequestReply` | clients/config_client/config_proxy.go:211-232 | a push unsyncs exactly the pushed entry |
| `ConfigClient.Client.OnDisConnect` | clients/config_client/config_connection_event_listener.go:44-64 | the loop unsyncs exactly the entries of the task |
| `ConfigClient.Client.ExecuteListener` | clients/config_client/config_client.go:87-104 | the shared record and the entry get the new md5 together |
| `ConfigClient.Client.RefreshContentAndCheck` | clients/config_client/config_client.go:502-528 | one query; the entry and the listener record become what the specification proved in `ConfigConvergence` says for its reply |
| `ConfigClient.Client.RefreshChanged` | clients/config_client/config_client.go:459-468 | the loop over the changed configurations of one answer |
| `ConfigClient.Client.SettleAll` | clients/config_client/config_client.go:470-480 | the loop over the whole map settles entries of every task |
| `ConfigClient.Client.ListenTask` | clients/config_client/config_client.go:437-481 | one task's request, refreshes and settling |
| `ConfigClient.Client.BuildListenTask` | clients/config_client/config_client.go:530-550 | each entry is in exactly one batch, its own task's, precisely when it is unsynced or a full sync is due |
| `ConfigClient.Client.ExecuteConfigListen` | clients/config_client/config_client.go:425-491 | a round does what the specification of a round says for some order of tasks |
| `ConfigClient.Client.NoSharedListener` | clients/config_client/config_client.go:341-357 | no two keys share a listener record |
| `ConfigClient.ServeAll` | clients/config_client/config_client.go:297-361 | any serial sequence of calls on a new client is a run of the specification, so it ends sound |
| `ServiceKeys.ReadBack` | util/common.go:54-63 | a cached key gives back service, group and clusters if and only if they are separable |
| `ServiceKeys.AtFreeIsSeparable` | util/common.go:54-63 | names without `@` are separable |
| `ServiceKeys.KeyInjective` | util/common.go:54-63 | separable triples never share a key |
| `ServiceKeys.SplitFirst` | clients/naming_client/naming_grpc/connection_event_listener.go:61-61 | splitting returns the first part exactly when neither it nor its border holds a separator |
| `ServiceKeys.ReadIsSeparable` | clients/naming_client/naming_grpc/connection_event_listener.go:61-68 | whatever the redo loops read off a key is separable |
| `ServiceKeys.CollidingKeys` | util/common.go:54-63 | two triples with one key |
| `ServiceKeys.WanderingSign` | util/common.go:54-63 | an `@` at the end of the group wanders into the service name |
| `NamingRedo.RedoAfterReconnect` | clients/naming_client/naming_grpc/connection_event_listener.go:45-95 | for every history of separable calls and every iteration order: re-subscribes exactly the triples whose latest call was Subscribe, re-registers exactly the latest registrations not followed by a deregister, each once, and leaves both caches unchanged |
| `NamingRedo.SubscribesExact` | clients/naming_client/naming_grpc/connection_event_listener.go:116-130 | a key is cached exactly when its triple is still subscribed |
| `NamingRedo.RegisteredExact` | clients/naming_client/naming_grpc/connection_event_listener.go:97-114 | a service is cached with exactly its standing registration |
| `NamingRedo.RedoIsIdle` | clients/naming_client/naming_grpc/connection_event_listener.go:54-95 | replaying caches of separable names changes neither |
| `NamingGrpc.Reconnect` | clients/naming_client/naming_grpc/connection_event_listener.go:45-48 | after any calls whatsoever a reconnect replays both caches without an index out of range, and the service cache ends as the answers leave it |
| `NamingGrpc.ConnectionEventListener.OnConnected` | clients/naming_client/naming_grpc/connection_event_listener.go:45-48 | sends one request per cached key in some order, updates the caches as those calls do, and processes exactly the answers to the re-subscriptions |
| `NamingGrpc.ConnectionEventListener.RedoSubscribe` | clients/naming_client/naming_grpc/connection_event_listener.go:54-75 | one Subscribe per cached key, each answer processed by the service cache, failures skipped |
| `NamingGrpc.ConnectionEventListener.RedoRegisterEachService` | clients/naming_client/naming_grpc/connection_event_listener.go:77-95 | one registration per cached service, single or batch as cached |
| `NamingGrpc.ConnectionEventListener.RemoveInstanceForRedo` | clients/naming_client/naming_grpc/connection_event_listener.go:107-114 | the service's registration is gone and nothing else changed |
| `NamingGrpc.ConnectionEventListener.CacheSubscriberForRedo` | clients/naming_client/naming_grpc/connection_event_listener.go:116-121 | the key is added and nothing else changed |
| `NamingGrpc.NamingGrpcProxy.RegisterInstance` | clients/naming_client/naming_grpc/naming_grpc_proxy.go:94-104 | caches the registration and sends it |
| `NamingGrpc.NamingGrpcProxy.BatchRegisterInstance` | clients/naming_client/naming_grpc/naming_grpc_proxy.go:107-117 | caches the batch and sends it |
| `NamingGrpc.NamingGrpcProxy.DeregisterInstance` | clients/naming_client/naming_grpc/naming_grpc_proxy.go:120-130 | drops the service's registration whatever the answer |
| `NamingGrpc.NamingGrpcProxy.Subscribe` | clients/naming_client/naming_grpc/naming_grpc_proxy.go:176-189 | caches the key, sends the request and returns its answer |
| `NamingGrpc.NamingGrpcProxy.IsSubscribed` | clients/naming_client/naming_grpc/naming_grpc_proxy.go:171-173 | true exactly for a cached key |
| `NamingGrpc.NamingGrpcProxy.Unsubscribe` | clients/naming_client/naming_grpc/naming_grpc_proxy.go:192-199 | drops the key and sends the request |
| `NamingCacheSpec.SubscriberView` | clients/naming_client/naming_cache/service_info_holder.go:74-106 | a callback registered while its key was uncached knows, after every later run that does not remove it, the cached hosts its selector admits, as a multiset |
| `NamingCacheSpec.UpToDateStep` | clients/naming_client/naming_cache/subscribe_callback.go:75-82 | each call keeps a subscriber up to date |
| `NamingCacheSpec.UnchangedIsReordering` | clients/naming_client/naming_cache/service_info_holder.go:144-164 | an update that is not announced only reorders the hosts, for any permuting sort |
| `NamingCacheSpec.UpdateReachesItsService` | clients/naming_client/naming_cache/service_info_holder.go:74-99 | an update takes effect if and only if it names hosts, or empty lists count, and is newer than what is cached for its service; it is then cached for exactly its service, and the first one is told to every callback there |
| `NamingCacheSpec.AnnouncedIffChanged` | clients/naming_client/naming_cache/service_info_holder.go:144-166 | with a sort that depends only on the instances, a newer update of a cached service is announced if and only if the hosts differ or the cached slice was nil |
| `NamingCacheSpec.FiledRun` | clients/naming_client/naming_cache/service_info_holder.go:86-94 | every cached service stays under its own key |
| `NamingCacheSpec.FirstRegistration` | clients/naming_client/naming_cache/service_info_holder.go:118-120 | a callback never told anything is, after every later run that does not remove it, up to date if and only if its key was announced since its registration or is uncached now |
| `NamingCacheSpec.ArrivalOrder` | clients/naming_client/naming_cache/service_info_holder.go:86-94 | any permutation of the same updates ends in the same cache when no two different updates share key and ref time, from any starting cache |
| `NamingCacheSpec.StoreAllIsNewest` | clients/naming_client/naming_cache/service_info_holder.go:86-94 | the cache holds at each key the newest of the initial entry and the updates that reached it, and an entry only if something reached it |
| `NamingCacheSpec.TieDependsOnOrder` | clients/naming_client/naming_cache/service_info_holder.go:88-91 | two different updates with equal key and ref time end differently in the two orders |
| `NamingCacheSpec.RefTimeGrows` | clients/naming_client/naming_cache/service_info_holder.go:88-94 | while nothing is deleted a cached key keeps its entry or trades it for a strictly newer one |
| `NamingCacheSpec.SelectCounts` | clients/naming_client/naming_cache/subscribe_callback_wrapper.go:66-77 | a selector keeps every admitted host as often as it occurs and no other |
| `NamingCacheSpec.LastNotified` | clients/naming_client/naming_cache/subscribe_callback.go:75-82 | an announcement reaches exactly the callbacks of its key, with their selections |
| `NamingCache.ServiceInfoHolder.ProcessService` | clients/naming_client/naming_cache/service_info_holder.go:74-106 | nil, empty, stale, changed and unchanged updates do to cache and deliveries what the specification says |
| `NamingCache.IsServiceInstanceChanged` | clients/naming_client/naming_cache/service_info_holder.go:144-164 | lengths, ref times, then the sorted lists, with a nil slice never equal |
| `NamingCache.SubscribeCallback.AddCallbackFunc` | clients/naming_client/naming_cache/subscribe_callback.go:46-57 | the callback is appended to the list of its key |
| `NamingCache.SubscribeCallback.RemoveCallbackFunc` | clients/naming_client/naming_cache/subscribe_callback.go:59-73 | the list keeps, in order, exactly the callbacks with another function or an unequal selector |
| `NamingCache.SubscribeCallback.ServiceChanged` | clients/naming_client/naming_cache/subscribe_callback.go:75-82 | every callback of the key gets its selection, in order |
| `NamingCache.SubscribeCallback.IsSubscribed` | clients/naming_client/naming_cache/subscribe_callback.go:37-44 | true exactly when a callback is left |
| `NamingCache.ServiceInfoHolder.StopUpdateIfContain` | clients/naming_client/naming_cache/service_info_holder.go:126-129 | the key is uncached and nothing else changed |
| `NamingCache.ServeAll` | clients/naming_client/naming_cache/service_info_holder.go:43-129 | any serial sequence of calls on a new holder is a run of the specification |
| `ClusterSelector.EqualsIffSameNames` | clients/naming_client/naming_cache/subscribe_callback_wrapper.go:79-106 | for comma-free names two selectors are equal exactly when their sets of non-empty names agree |
| `ClusterSelector.EqualSelectorsAgree` | clients/naming_client/naming_cache/subscribe_callback_wrapper.go:66-87 | equal selectors pick the same hosts among those with a cluster name |
| `ClusterSelector.EqualSelectorsAgreeOnAll` | clients/naming_client/naming_cache/subscribe_callback_wrapper.go:66-87 | they pick the same hosts of every list exactly when both or neither list the empty name, or neither has a name |
| `ClusterSelector.CommaCollision` | clients/naming_client/naming_cache/subscribe_callback_wrapper.go:89-106 | a name with a comma equals a selector with different names |
| `ClusterSelector.JoinCluster` | clients/naming_client/naming_cache/subscribe_callback_wrapper.go:89-106 | whatever order the set is visited in, the text joins the one ascending listing of the non-empty names |
| `ClusterSelector.AscendingUnique` | clients/naming_client/naming_cache/subscribe_callback_wrapper.go:98-105 | a set has one ascending listing |
| `ClusterSelector.JoinInjective` | clients/naming_client/naming_cache/subscribe_callback_wrapper.go:105-105 | comma-free non-empty names can be read off the joined text |
| `ClusterSelector.NewClusterSelector` | clients/naming_client/naming_cache/subscribe_callback_wrapper.go:21-37 | the selector carries the canonical text and the names as given |
| `ClusterSelector.SelectInstance` | clients/naming_client/naming_cache/subscribe_callback_wrapper.go:66-77 | all hosts when the text is empty, else those of the listed clusters, in order |
| `ClusterSelector.Contains` | util/common.go:143-150 | true exactly when the item is in the slice |
| `NamingClientSpec.ClientSubscriberView` | clients/naming_client/naming_client.go:341-350 | a callback subscribed while its service is uncached knows the cached hosts its selector admits, as a multiset, through every later subscription, query, push and reconnect, until its own struct unsubscribes |
| `NamingClientSpec.FirstAnswerArrives` | clients/naming_client/naming_client.go:341-350 | after the first usable answer of a service the new callback has been told its hosts, and a query returns it without asking again |
| `NamingClientSpec.SubscribesInGroup` | clients/naming_client/naming_client.go:341-350 | the callback is registered for the service in the given group, or in DEFAULT_GROUP, and that group is written into the struct |
| `NamingClientSpec.SecondSubscriptionAsksNothing` | clients/naming_client/naming_proxy_delegate.go:115-130 | a service that is subscribed and cached is not asked for again and nothing but the callback changes |
| `NamingClientSpec.FiledSteps` | clients/naming_client/naming_cache/service_info_holder.go:86-94 | through every run of the client the cache stays filed under the services' own keys |
| `NamingClientSpec.ChangedStructLeavesCallback` | clients/naming_client/naming_client.go:353-363 | a struct that names another service or other clusters when it is used to unsubscribe leaves its callback behind |
| `NamingClientSpec.SubscribeIsUndone` | clients/naming_client/naming_client.go:341-363 | for every state, unsubscribing with the struct of a subscription, whatever happened in between, removes its callbacks and keeps the others, also when the group was left empty |
| `NamingClientSpec.OtherStructNeverMatches` | clients/naming_client/naming_client.go:353-363 | unsubscribing with another struct leaves every callback of this one, at every key |
| `NamingClientSpec.RedoneIffLive` | clients/naming_client/naming_client.go:341-363 | for separable names, after every run of subscriptions, unsubscriptions, queries, pushes and reconnects, a key is cached for redo if and only if it has a live callback, or was queried while uncached and no unsubscription has emptied it since |
| `NamingClientSpec.LiveCallbacksAreRedone` | clients/naming_client/naming_grpc/connection_event_listener.go:54-75 | after any run of the client, queries included, a reconnect re-subscribes a triple with a live callback if and only if it is separable; otherwise it re-subscribes the triple read off its key instead |
| `NamingClientSpec.CoveredRun` | clients/naming_client/naming_client.go:341-363 | every key with a live callback stays cached for redo |
| `NamingClientSpec.StepRunsCache` | clients/naming_client/naming_proxy_delegate.go:115-135 | each client operation does to the service cache what a sequence of cache calls does |
| `NamingClient.NamingProxyDelegate.Subscribe` | clients/naming_client/naming_proxy_delegate.go:115-130 | asks the server unless subscribed and cached, and processes the service it returns |
| `NamingClient.NamingProxyDelegate.Unsubscribe` | clients/naming_client/naming_proxy_delegate.go:132-135 | uncaches the service and drops the redo entry |
| `NamingClient.Client.Subscribe` | clients/naming_client/naming_client.go:341-350 | writes the default group into the caller's struct, changes registry, cache and redo as the specification says, and succeeds exactly when the service was subscribed and cached or the request was answered |
| `NamingClient.Client.Unsubscribe` | clients/naming_client/naming_client.go:353-363 | removes the struct's callback and, when none is left, the cached service and the redo entry |
| `NamingClient.Client.Lookup` | clients/naming_client/naming_client.go:258-274 | the cached service with nothing changed, or a subscription without a callback |
| `NamingClient.Client.OnConnected` | clients/naming_client/naming_grpc/connection_event_listener.go:45-48 | replays the redo caches and feeds the answers to the service cache |
| `NamingClient.ServeAll` | clients/naming_client/naming_client.go:341-363 | any sequence of calls on a new client, with the caller's structs at distinct addresses, is a run of the specification |
| `Chooser.ProportionalChoice` | clients/naming_client/naming_instance_chooser.go:47-62 | of the draws 1..max exactly floor(weight) per listing select each eligible host, and none selects another |
| `Chooser.Proportional` | clients/naming_client/naming_instance_chooser.go:58-62 | the same for any list of positive weights |
| `Chooser.SelectOneHealthyInstances` | clients/naming_client/naming_client.go:316-338 | empty list, no eligible host, panic and choice each in exactly its case: the draw panics if and only if there is an eligible host and none weighs at least 1; the chosen host is eligible and the holder of the draw |
| `Chooser.NewChooser` | clients/naming_client/naming_instance_chooser.go:47-56 | totals are the sums of the truncated weights of every prefix |
| `Chooser.Pick` | clients/naming_client/naming_instance_chooser.go:58-62 | the search stays in bounds and lands on the holder of the drawn number |
| `Chooser.SearchInts` | clients/naming_client/naming_instance_chooser.go:60-60 | on a non-decreasing slice, the first position holding at least the number |
| `Chooser.PositiveTotal` | clients/naming_client/naming_instance_chooser.go:50-55 | the total is positive exactly when some weight reaches 1 |
| `ConcurrentMap.HashKey` | clients/cache/concurrent_map.go:311-319 | the loop computes the FNV hash of the key |
| `ConcurrentMap.Fnv1Vectors` | clients/cache/concurrent_map.go:311-319 | which has the published values of 32-bit FNV-1 |
| `ConcurrentMap.ShardIndex` | clients/cache/concurrent_map.go:56-58 | each key has one shard |
| `ConcurrentMap.Map.Set` | clients/cache/concurrent_map.go:70-76 | the flat map gets the pair |
| `ConcurrentMap.Map.MSet` | clients/cache/concurrent_map.go:60-67 | the flat map is overridden by the data, in any order |
| `ConcurrentMap.Map.Upsert` | clients/cache/concurrent_map.go:85-93 | the flat map gets what the callback makes of the old value |
| `ConcurrentMap.Map.SetIfAbsent` | clients/cache/concurrent_map.go:96-106 | the flat map changes exactly when the key was absent |
| `ConcurrentMap.Map.Get` | clients/cache/concurrent_map.go:109-117 | the flat map's value |
| `ConcurrentMap.Map.Has` | clients/cache/concurrent_map.go:132-140 | membership in the flat map |
| `ConcurrentMap.Map.Remove` | clients/cache/concurrent_map.go:143-149 | the key leaves the flat map |
| `ConcurrentMap.Map.Pop` | clients/cache/concurrent_map.go:152-160 | the value leaves the flat map and is returned |
| `ConcurrentMap.Map.Count` | clients/cache/concurrent_map.go:120-129 | the size of the flat map |
| `ConcurrentMap.Map.IsEmpty` | clients/cache/concurrent_map.go:163-165 | true exactly for the empty flat map |
| `ConcurrentMap.NextBelow` | clients/cache/concurrent_map.go:120-129 | a shard contributes exactly its own keys to the count |
| `FanIn.DeliversAll` | clients/cache/concurrent_map.go:199-235 | in every interleaving of the snapshot and fan-in goroutines, once the output is closed and drained each pair has been delivered as often as it was stored |
| `FanIn.RunsFinish` | clients/cache/concurrent_map.go:184-235 | with the channel capacities of the source no run gets stuck and none goes on for ever: it can be continued exactly until the output is closed and drained, after three steps per shard, four per pair and one more |
| `FanIn.NoSendOnClosed` | clients/cache/concurrent_map.go:199-235 | nothing is ever sent on a closed channel |
| `FanIn.CopiersWait` | clients/cache/concurrent_map.go:184-214 | nothing is sent to a channel that does not exist, and nothing is copied before snapshot has made every channel |
| `FanIn.ConservedRun` | clients/cache/concurrent_map.go:199-235 | no step creates or loses a pair |
| `MapItems.ItemsIsContents` | clients/cache/concurrent_map.go:238-247 | with no writer, every interleaving lets Items return the flat map |
| `MapItems.CollectItems` | clients/cache/concurrent_map.go:238-247 | the loop builds the map of the received pairs |
| `UuidV1.Unique` | inner/uuid/generator.go:110-132 | for any clock readings, repeated or going backwards, the UUIDs of one generator are distinct while the clock fails to advance fewer than 2^14 times |
| `UuidV1.BoundIsSharp` | inner/uuid/generator.go:187-212 | on a stuck clock the UUID after 2^14 stalls repeats the first one |
| `UuidV1.V1Injective` | inner/uuid/generator.go:110-132 | two UUIDs are equal exactly when their times and the low 14 bits of their sequences are |
| `UuidV1.EpochFits` | inner/uuid/generator.go:239-241 | for every 64-bit reading the epoch neither wraps nor reaches 2^60, and counts its whole intervals of 100 nanoseconds, rounded toward zero |
| `UuidV1.V1Tagged` | inner/uuid/generator.go:128-129 | version 1 and the RFC 4122 variant |
| `UuidV1.V1Fields` | inner/uuid/generator.go:117-126 | the time, the low 14 bits of the sequence and the address can be read off the fields that section 4.1.2 of RFC 4122 gives them |
| `UuidV1.IssuedFields` | inner/uuid/generator.go:110-132 | an issued UUID carries the epoch of the reading, the generator's sequence and address, version 1 and the variant |
| `UuidV1.IssuedIff` | inner/uuid/generator.go:110-132 | a call fails exactly when it is the first and its seed fails, or when it looks for an address and finds none |
| `UuidV1.AddressIs` | inner/uuid/generator.go:215-235 | the address is the interface's, or random with the multicast bit set; a failed read leaves its bytes for later calls |
| `UuidV1.SequenceCountsStalls` | inner/uuid/generator.go:203-211 | the clock sequence counts the stalls modulo 2^16 |
| `UuidV1.EqualTimesStall` | inner/uuid/generator.go:203-211 | between two equal readings the clock stalled |
| `UuidV1.Generator.GetClockSequence` | inner/uuid/generator.go:187-212 | the once-only seed and its failure, then the stamp after the reading |
| `UuidV1.Generator.GetHardwareAddr` | inner/uuid/generator.go:215-235 | the once-only address, its random fallback and its failure |
| `UuidV1.Generator.NewV1` | inner/uuid/generator.go:110-132 | the UUID and the new state in all cases: first call, failed seed, failed address and later calls; the result carries the time of the reading and the address |
| `UuidV1.NewV1Run` | inner/uuid/generator.go:110-132 | all UUIDs returned by a new generator, through failed calls, are distinct while the clock fails to advance fewer than 2^14 times |
| `UuidV1.AllIssuedDistinct` | inner/uuid/generator.go:110-132 | the same on values, for any calls and any answers of clock, random source and interfaces |
| `UuidV1.GenTracks` | inner/uuid/generator.go:187-212 | the generator's stamp is that of the readings so far from the seed of its first call |
| `UuidText.TextRoundTrip` | inner/uuid/codec.go:97-113 | decoding the canonical text of a value gives the value |
| `UuidText.FormsDecodeAlike` | inner/uuid/codec.go:116-191 | canonical, hash-like, braced and both URN forms of the same digits, in any case, decode alike |
| `UuidText.AcceptedReencodes` | inner/uuid/codec.go:97-191 | an accepted text re-encodes to the lower-case canonical form of its digits |
| `UuidText.Accepts` | inner/uuid/codec.go:97-191 | a text is accepted if and only if it is one of the five forms (canonical, hash-like, braced, both URN forms) of 32 hexadecimal digits |
| `UuidText.DigitsAreForms` | inner/uuid/codec.go:97-191 | a text whose digits are found is one of the five forms of those digits |
| `UuidText.BracedHashLikeRefused` | inner/uuid/codec.go:151-164 | the documented braced form without dashes is refused for all digits |
| `UuidText.UnmarshalText` | inner/uuid/codec.go:97-113 | accepts exactly what the specification decodes and then holds its bytes; after a failure the receiver holds exactly the digit pairs before the bad one over its old bytes |
| `UuidText.DecodeCanonical` | inner/uuid/codec.go:116-138 | the group loop writes the digit pairs up to the first bad one, or nothing without the dashes |
| `UuidText.DecodePlain` | inner/uuid/codec.go:182-191 | either plain form by its length, with the same effect on the receiver |
| `UuidText.String` | inner/uuid/uuid.go:115-129 | the canonical text |
| `Uuid.SetVersion` | inner/uuid/uuid.go:132-134 | writes the version and keeps the low four bits and every other byte |
| `Uuid.SetVariant` | inner/uuid/uuid.go:137-152 | writes the variant and keeps every other byte |
| `Uuid.HexRoundTrip` | inner/uuid/uuid.go:115-129 | bytes come back from their hexadecimal text |
| `Uuid.UnHexAccepts` | inner/uuid/codec.go:141-149 | exactly the even numbers of hexadecimal digits decode |
| `Utf8.ReencodeIffValid` | common/encoding/encryption.go:24-40 | decoding into runes and encoding again is the identity exactly on valid UTF-8 |
| `Utf8.WindowIffValid` | common/encoding/encryption.go:42-57 | the window loop is the identity exactly on valid UTF-8 |
| `Utf8.DecodeString2Utf8Bytes` | common/encoding/encryption.go:24-40 | the buffer is filled with exactly the encoding of the runes |
| `Utf8.EncodeUtf8Bytes2String` | common/encoding/encryption.go:42-57 | the string of the runes the window finds |
| `Utf8.WindowedIsRunes` | common/encoding/encryption.go:46-56 | over an encoding the window closes at every rune and nowhere else |
| `Utf8.DecodeRuneExact` | common/encoding/encryption.go:24-40 | decoding takes the scalar value that the bytes begin with, or one byte for the replacement character if there is none |
| `Utf8.FullRuneExact` | common/encoding/encryption.go:42-57 | a window is full if and only if no further bytes could change the rune it begins with |
| `Utf8.RuneLenExact` | common/encoding/encryption.go:24-40 | the length of a rune's encoding, and -1 for what is no scalar value |
| `AesEcb.AesRoundTrip` | common/encryption/aes_ecb_pkcs5padding.go:26-52 | every plaintext that encrypts decrypts to itself |
| `AesEcb.UnpadPad` | common/encryption/aes_ecb_pkcs5padding.go:54-64 | unpadding undoes padding, and padded lengths are full blocks |
| `AesEcb.PaddingExact` | common/encryption/aes_ecb_pkcs5padding.go:54-58 | the padded text is the one text of full blocks that extends it by between 1 and 16 bytes, each of them their number |
| `AesEcb.CiphertextIs` | common/encryption/aes_ecb_pkcs5padding.go:26-36 | encryption fails exactly for a key size other than 16, 24 and 32, and the ciphertext is block by block the encryption of the padded text |
| `AesEcb.PlaintextIs` | common/encryption/aes_ecb_pkcs5padding.go:38-52 | bad key size, partial block, panic and success each in exactly its case, and the text is the block by block decryption without as many bytes as its last one says |
| `AesEcb.EmptyStaysEmpty` | common/encryption/aes_ecb_pkcs5padding.go:26-41 | the empty text is its own ciphertext, whatever the key |
| `AesEcb.BlocksRoundTrip` | common/encryption/aes_ecb_pkcs5padding.go:66-88 | decrypting block by block undoes encrypting block by block |
| `AesEcb.BlockEncrypt` | common/encryption/aes_ecb_pkcs5padding.go:66-76 | the loop encrypts every block, or refuses partial blocks |
| `AesEcb.BlockDecrypt` | common/encryption/aes_ecb_pkcs5padding.go:78-88 | the loop decrypts every block, or refuses partial blocks |
| `AesEcb.AesEcbPkcs5PaddingEncrypt` | common/encryption/aes_ecb_pkcs5padding.go:26-36 | empty input, bad key and padded encryption |
| `AesEcb.AesEcbPkcs5PaddingDecrypt` | common/encryption/aes_ecb_pkcs5padding.go:38-52 | empty input, bad key, partial blocks, the unpadding panic and decryption |
| `EncryptionRoundTrip.FilterRoundTrip` | common/filter/config_encryption_filter.go:42-87 | a request that is filtered successfully is filtered back successfully, whichever longest-matching plugins are picked, and the content is restored if and only if it is valid UTF-8, was left alone, or no AES plugin applies |
| `EncryptionRoundTrip.HandlerRoundTrip` | common/encryption/handler.go:97-127 | the same for the handler |
| `EncryptionRoundTrip.PicksAgree` | common/encryption/handler.go:129-146 | plugins picked for one data id either all use AES or none does |
| `EncryptionRoundTrip.PluginRoundTrip` | common/encryption/kms_plugins.go:30-114 | what one plugin encrypts any plugin of its kind decrypts with the decrypted data key |
| `EncryptionRoundTrip.AesContentRoundTrip` | common/encryption/kms_plugins.go:30-71 | encryption through UTF-8, AES and base64 is undone up to the replacement of invalid bytes, and its text is never blank |
| `EncryptionRoundTrip.BaseContentRoundTrip` | common/encryption/kms_plugins.go:256-283 | content encrypted by the service comes back unchanged |
| `EncryptionRoundTrip.EnvExists` | common/encryption/kms_plugins.go:26-28 | what the round trip assumes of AES, base64 and the service can be met |
| `EncryptionRoundTrip.EnvEncrypts` | common/encryption/kms_plugins.go:30-50 | and in that environment either AES plugin encrypts every content that is not empty |
| `EncryptionRoundTrip.KeyIdIsUsed` | common/encryption/kms_plugins.go:144-196 | encryption succeeds if and only if there is a content and a key id, the caller's or the default that only KMS version 1 has, and the service's answers for that key id can be used; it hands on exactly what they give |
| `EncryptionRoundTrip.DecryptsExactly` | common/encryption/kms_plugins.go:52-114 | decryption succeeds if and only if the service's answers for the encrypted data key, or for the content, can be used, and hands on exactly what they give |
| `EncryptionRoundTrip.EmptyKeysAreReported` | common/encryption/kms_plugins.go:101-196 | an empty plain or encrypted data key is reported as such, on either way |
| `EncryptionRoundTrip.SpacesAre` | common/encryption/kms_plugins.go:144-145 | blank means nothing but code points with the property White_Space |
| `EncryptionRoundTrip.FilterUsesKeyId` | common/filter/config_encryption_filter.go:42-72 | the same for a request through the filter, with the configuration's key id |
| `EncryptionRoundTrip.FilterDecrypts` | common/filter/config_encryption_filter.go:42-72 | a response is decrypted with its own data key by a picked plugin |
| `EncryptionRoundTrip.FilterLeavesAlone` | common/filter/config_encryption_filter.go:42-87 | the filter leaves alone what has no cipher prefix, a blank content or another usage, and changes nothing when it fails |
| `EncryptionRoundTrip.FilteredPassesChecks` | common/filter/config_encryption_filter.go:42-72 | what it does filter passes the handler's checks of data id and content, so only a missing plugin or the plugin itself can fail |
| `EncryptionRoundTrip.HandlerRefuses` | common/encryption/handler.go:97-146 | the handler refuses a data id without the prefix, then an empty content, then a data id that names no plugin, and changes nothing |
| `EncryptionRoundTrip.HandlerAnswers` | common/encryption/handler.go:97-127 | it always has an outcome |
| `EncryptionRoundTrip.PickedIffAnyMatch` | common/encryption/handler.go:129-146 | a plugin is picked if and only if a registered name occurs in the data id, and then under a longest such name |
| `Encryption.AesEncrypt` | common/encryption/kms_plugins.go:30-50 | overwrites the content, or reports the error and leaves the parameter alone |
| `Encryption.AesDecrypt` | common/encryption/kms_plugins.go:52-71 | overwrites the content, or reports the error and leaves the parameter alone |
| `Encryption.BaseEncrypt` | common/encryption/kms_plugins.go:256-271 | the same through the service |
| `Encryption.BaseDecrypt` | common/encryption/kms_plugins.go:273-283 | the same through the service |
| `Encryption.Generate` | common/encryption/kms_plugins.go:177-196 | both data keys are set, and an empty one is an error |
| `Encryption.DecryptKey` | common/encryption/kms_plugins.go:101-114 | the plain data key is set, and an empty one is an error |
| `Encryption.KmsHandler.GetPluginByDataIdPrefix` | common/encryption/handler.go:129-146 | in any order of the map, a plugin whose name occurs in the data id and is longest, or an error exactly when no name occurs |
| `Encryption.KmsHandler.RegisterPlugin` | common/encryption/handler.go:148-156 | the plugin stands under its own name |
| `Encryption.KmsHandler.EncryptionHandler` | common/encryption/handler.go:97-111 | checks, plugin, key, content |
| `Encryption.KmsHandler.DecryptionHandler` | common/encryption/handler.go:113-127 | checks, plugin, key, content |
| `Encryption.DoFilter` | common/filter/config_encryption_filter.go:42-72 | leaves alone what needs no encryption, and otherwise overwrites content and key exactly on success |
| `Encryption.SendAndReceive` | common/filter/config_encryption_filter.go:42-72 | the round trip through one handler, in place |
| `ServerProbe.ReachesEveryIffPowerOfTwo` | common/nacos_server/nacos_server.go:209-218 | the n attempts reach every server if and only if n is a power of two |
| `ServerProbe.FailureMeansAllFailed` | common/nacos_server/nacos_server.go:230-252 | that every failure means every server was contacted and refused holds if and only if n is a power of two; a single server is asked three times |
| `ServerProbe.ProbeClosedForm` | common/nacos_server/nacos_server.go:209-218 | attempt i goes to server (start + i(i-1)/2) mod n |
| `ServerProbe.PowerOfTwoDistinct` | common/nacos_server/nacos_server.go:209-218 | for a power of two no server is tried twice |
| `ServerProbe.OtherwiseCollision` | common/nacos_server/nacos_server.go:209-218 | for any other number two attempts go to one server |
| `ServerProbe.ReqApi` | common/nacos_server/nacos_server.go:223-255 | fails exactly when every attempt failed, each at its probed server, three for a single server, and otherwise returns the first success |
| `ServerProbe.AskInTurn` | common/nacos_server/nacos_server.go:243-252 | over several servers, the first success in the order of the probes |
| `ServerProbe.RotationHitsEachOnce` | common/nacos_server/nacos_server.go:358-365 | n consecutive tickets of the 32-bit counter hit each of n servers exactly once while it does not wrap |
| `ServerProbe.RotationExact` | common/nacos_server/nacos_server.go:358-365 | for n > 1 and every 32-bit counter they do so if and only if the first ticket is not negative, and none is wrapped or only the last one and n divides 2^31 |
| `ServerProbe.DrawTickets` | common/nacos_server/nacos_server.go:358-365 | successive calls return the tickets of the successive counters |
| `ServerProbe.WrappedCounterPanics` | common/nacos_server/nacos_server.go:358-365 | after the counter wraps, one of the next two tickets of more than one server is out of range |
| `ServerProbe.NacosServer.GetNextServer` | common/nacos_server/nacos_server.go:358-365 | advances the 32-bit counter and returns its ticket, or an error for an empty list |

## Left out

- RPC client: which server is dialled, TLS, timers and the number of request retries; only the order of their effects on shared memory is modelled.
- RPC client: liveness; the worker can block on its own channel, so only safety is claimed. What is under way when Shutdown is called can still restore RUNNING.
- Config client: the push handler and a round run as whole steps; finer interleavings of their unlocked read-modify-write can lose a flag.
- Config client: the notification channel that wakes the listen loop, snapshot files, metrics and the filter chain applied to content before a listener runs.
- NamingCache.ServiceInfoHolder.ProcessService: does not record update times or write cache files, and does not model that the change test sorts the old host slice in place, which a subscriber may still hold.
- NamingCacheSpec.UnchangedIsReordering: states only that no change is missed; a reordering may be announced, because the comparison behind the sort is not an order.
- ClusterSelector.EqualsIffSameNames: only for comma-free names, as `ClusterSelector.CommaCollision` shows.
- ClusterSelector.SortStrings: requires distinct strings, which is how it is called.
- NamingClient.Client.Subscribe: the error values of failed requests are not modelled, only whether there is one. Registrations of non-ephemeral instances go through the HTTP proxy, which is not part of this model.
- Chooser.NewChooser: totals are unbounded integers and weights are reals, so overflow and floating-point rounding are not modelled.
- FanIn.RunsFinish: models the buffered iteration that `Items` uses, not the unbuffered `Iter`.
- ConcurrentMap: `Keys`, `IterCb` and JSON; the first repeats the goroutine structure of `Items`.
- UUID versions 2 to 5 and the binary codec: they add only easy members.
- Uuid.SetVersion: shifts and masks of bytes are written as quotients, remainders and sums.
- EncryptionRoundTrip.FilterRoundTrip: AES, base64 and the key management service are assumed invertible, with non-blank ciphertexts and printable base64.
- The filter queue, the beat reactor, the HTTP naming proxy, the UDP push receiver, request signing, credentials and option builders.
