# Xiva in Dafny

Xiva is a push server: clients subscribe over HTTP or WebSocket, and user code sends messages to
them by receiver name. This project models its three hard parts and proves what they keep over
every run and every input.

**Connections, registry and notifications.** `ConnectionSpec` says what each handler of the
connection state machine does; `ConnectionImpl` is the object with those fields and methods;
`ConnectionInvariant`, `ConnectionRuns` and `IdleBound` prove what holds of all runs, `Lifetime`
when a connection ends and what each handler writes. `StrandSpec`, `StrandInvariant`, `StrandRuns` and the object `ConnectionManager` add the
double-indexed registry with its channel counters (`ChannelsStat`, `Messages`).
`Notification`, `NotificationInvariant` and `NotificationRuns` model the listener threads as a
step relation in which every lock-protected section, guard test and callback is one step;
`Guard`, `ThreadedQueue`, `CompoundListener` and `ThreadedListener` are the objects, with lemmas
that their loops and the steps agree. `Server` puts strand and threads together, `Disconnects`
follows the `disconnected` events through both. `MessageQueue` and `HandlerInvoker` are the
hand-offs between threads and the strand.

**Requests.** `Text`, `LineReader`, `Request`, `RequestChecker` and `UrlCode` follow the parsing
code; `Unfolding`, `RequestAgreement`, `RequestStability` and `EarlyStop` prove
how far the incremental completeness test and the parser agree, `MatchCondition` when and where
reading stops, `QueryString` and `HeaderFields` that printed requests come back whole.

**Printers.** `WebSocket` and `Chunks` print; each is proved against an independent reader of the
standard it follows. `WireStream` joins them to the connection: what a client reads out of the
bytes of a whole run. `ClientView` closes the circle from `send` to that client, and `Delivery`
from the manager's sends to it, inside any run of the strand or of the server. `Sequences`
holds a few facts about sequences, `Wrappers` the option type.

An algorithm that the program runs in place is a method of a class or a loop, proved equal to a
function of the old state; the results are lemmas about those functions and about runs of them.

## Where the code does not do what one would expect

* A `read_some` that completes with data cancels the idle timer and arms none. A connection that
  idles then would have nothing left but the next read to wake it (`ConnectionRuns.NoStall`,
  `StallExample`). The read asks for an unbounded buffer to be filled, so a socket layer that keeps
  to that never completes it without an error, and then every state of every run is live
  (`LiveWhileNothingIsRead`).
* A handler that throws an exception with an empty message is reported as a success
  (`HandlerInvoker.ToldTheVerdict`, `SilentFailure`).
* The completeness test reads a folded request line with its line breaks, the parser without. A
  request whose method is followed by a fold is cut short (`RequestAgreement.ThrowsApart`,
  `EarlyStop.StopsTooSoon`).
* A header break at the end of the data is undone by a blank that arrives next
  (`RequestStability.AcceptanceStable`).
* A late ping write moves the idle deadline (`IdleBound.LatePingRenews`).
* The last chunk lacks the final CRLF (`Chunks.LacksFinalEndl`), and the close output is a single
  byte (`WireStream.SocketClientReads`).

## Assumptions

* Cancelling or re-arming the timer voids the pending wait; its handler still runs with an error
  code, which matters for `handle_ping` only.
* A handler reads the clock once; times are integers in microseconds.
* Starting an asynchronous operation, allocating and pushing to a queue do not throw. Listener
  callbacks, formatters, the manager's sends and request handlers may throw; which do is an input.
* A message carries the outcome that its formatting will have for each connection that gets it, so
  formatters may be arbitrary. Filters answer by an arbitrary set of connections.
* Connections and their guards are identified by position, not by numeric id. The name, channels
  and settings of a connection do not change.
* The hash of a receiver name is an arbitrary function.
* Text is a sequence of characters, bytes are those below 256, character classes are those of the
  "C" locale.

## Model

| member | source | states |
|---|---|---|
| `ConnectionRuns.WriteDiscipline` | include/details/connection_impl.hpp:500-575 | In every run at most one `async_write` is outstanding and the texts written are, in order and once each, the non-empty formatted texts of a prefix of what was passed to `send`: none from the null message on, at most one in single-message mode, none after the last-message write; a connection that is up and not writing has written all of them |
| `ConnectionRuns.PingAssertionsHold` | include/details/connection_impl.hpp:373-396 | In every run `assert(!disable_ping_)` holds wherever it is evaluated next: after a ping write, when a ping is due, and when a cancelled ping wait reports |
| `ConnectionRuns.NoStall` | include/details/connection_impl.hpp:501-533 | The states of a run from the start are all live (connected and not writing implies an empty message list and an armed ping or inactive timer) if and only if no `read_some` completes with data while the connection idles |
| `ConnectionRuns.StepLives` | include/details/connection_impl.hpp:322-338 | One step from a live state leads to a live state if and only if it is not such a read |
| `ConnectionRuns.SilencedStalls` | include/details/connection_impl.hpp:322-338 | After such a read the connection is up with no timer, no write and only the next read pending |
| `ConnectionRuns.StallExample` | include/details/connection_impl.hpp:322-338 | If the socket layer completes such a read, every plain HTTP subscription with a usable idle timeout has a run that gets there: the condition of `NoStall` cannot be dropped |
| `ConnectionRuns.LiveWhileNothingIsRead` | include/details/connection_impl.hpp:321-338 | In a run in which no `read_some` completes with data, which is all that a read into an unbounded buffer does, every state is live |
| `ConnectionRuns.RegisteredOnce` | include/details/connection_impl.hpp:622-629 | In every run the registry is asked for at most one insertion and at most one removal, after it; `managed_` holds exactly between the two |
| `ConnectionRuns.RunSends` | include/details/connection_impl.hpp:172-182 | The log of sent entries that the other results speak of is exactly the sequence of calls of `send` in the run |
| `Lifetime.EndsForCause` | include/details/connection_impl.hpp:248-420 | In every run a connection ends (its socket closes or its closing write starts) if and only if some event is a cause: a failed completion or the end of the client's data, a refused or otherwise answered request, `close`, a timeout, a text written in single-message mode, the null message or a throwing message coming first, or the idle deadline; until then it is at the stage that the events say |
| `Lifetime.StepDid` | include/details/connection_impl.hpp:248-420 | Every handler, on a connection that is going, writes exactly what the first waiting entry of which anything comes (or the request's outcome) says, with the write timeout armed; ends the connection exactly for those causes, deregistered when closed; and otherwise moves it to the next stage |
| `Lifetime.WriteLeads` | include/details/connection_impl.hpp:500-533 | The loop of `write_message` comes to what that first entry says: its text, the last message, the end of the connection, or the idle timers |
| `Lifetime.UpWritesAll` | include/details/connection_impl.hpp:357-371 | As long as nothing ends it, a connection whose headers are written is up, and whenever no write is outstanding every text that was sent to it has been written |
| `Lifetime.StepLeaves` | include/details/connection_impl.hpp:398-410 | While a closing write is outstanding each handler changes nothing, or closes the socket and leaves the registry |
| `ConnectionInvariant.StepKeeps` | include/details/connection_impl.hpp:248-420 | Every handler keeps the invariant: one write at most, texts delivered in order, stages of the request, registry calls, and `!disable_ping_` wherever it is asserted |
| `ConnectionInvariant.WriteMessageKeeps` | include/details/connection_impl.hpp:500-533 | The loop of `write_message` restores the invariant from any state between two writes |
| `ConnectionInvariant.CleanupKeeps` | include/details/connection_impl.hpp:622-635 | `cleanup` restores the whole invariant from what survives inside a handler, so every error path may use it |
| `ConnectionSpec.Conn.Step` | include/details/connection_impl.hpp:155-420 | No handler touches the registry except by one insertion (in `handled`, when accepted) and one removal; only `send` adds to what was sent |
| `ConnectionImpl.Connection.WriteNextMessage` | include/details/connection_impl.hpp:500-533 | The loop over the object's fields does what the specification of `write_message` says of the old state |
| `ConnectionImpl.Connection.SendEntry` | include/details/connection_impl.hpp:172-182 | `send` queues the entry and starts writing when the connection is idle; like every handler below it requires and restores the invariant of all runs |
| `ConnectionImpl.Connection.HandleResponse` | include/details/connection_impl.hpp:184-219 | `handled`: static answer, subscription with registration, or error |
| `ConnectionImpl.Connection.HandleErrors` | include/details/connection_impl.hpp:221-246 | `handled_errors`: an HTTP error answer or the end of the connection |
| `ConnectionImpl.Connection.HandleReadRequest` | include/details/connection_impl.hpp:258-319 | The request phase: refused, policy file, or handed to the invoker |
| `ConnectionImpl.Connection.HandleReadSome` | include/details/connection_impl.hpp:321-338 | Reading on, or the end of the connection |
| `ConnectionImpl.Connection.HandleWriteHeaders` | include/details/connection_impl.hpp:340-355 | After the headers the connection is up, reads on and writes what has been queued |
| `ConnectionImpl.Connection.HandleWriteMessage` | include/details/connection_impl.hpp:357-371 | The next message, or the last one in single-message mode |
| `ConnectionImpl.Connection.HandleWritePing` | include/details/connection_impl.hpp:373-388 | After a ping: the next message or the idle timers; `assert(!disable_ping_)` holds |
| `ConnectionImpl.Connection.HandlePing` | include/details/connection_impl.hpp:390-396 | A ping that is due: `assert(!disable_ping_)` holds and the ping is written; the invariant is kept |
| `ConnectionImpl.Connection.HandleTimeout` | include/details/connection_impl.hpp:404-410 | A write or read that took too long ends the connection; the invariant is kept |
| `ConnectionImpl.Connection.HandleInactiveTimeout` | include/details/connection_impl.hpp:412-418 | The idle deadline starts the last message; the invariant is kept |
| `ConnectionImpl.Connection.HandlePingAborted` | include/details/connection_impl.hpp:390-396 | A cancelled ping wait: `assert(!disable_ping_)` holds even then |
| `ConnectionImpl.Connection.Close` | include/details/connection_impl.hpp:636-640 | `close` by the manager is a cleanup that keeps the invariant |
| `ConnectionImpl.Connection.Cleanup` | include/details/connection_impl.hpp:622-635 | Leaves the registry once if it is in it, drops the timer and closes the socket |
| `ConnectionImpl.Connection.SetupPingOrInactiveTimeout` | include/details/connection_impl.hpp:651-681 | Renews a deadline that has passed, then arms the ping timer, the inactive timer, or ends |
| `IdleBound.PingsFit` | include/details/connection_impl.hpp:651-690 | While pings are written before the deadline, each takes at least `ping_interval` (at least 100 ms) off the time left, so fewer than time left / `ping_interval` are sent |
| `IdleBound.PingsPerTimeout` | include/details/connection_impl.hpp:651-690 | From the moment a connection runs out of messages, fewer than `inactive_timeout` / `ping_interval` pings are written in time, whatever it waits for first |
| `IdleBound.IdleStretch` | include/details/connection_impl.hpp:651-690 | From running out of messages through any number of pings in time, none included, with pings enabled or not: the deadline stays one whole `inactive_timeout` after that moment, and unless a further ping is awaited the last message starts not after it and less than 100 ms before it |
| `IdleBound.QuietEnd` | include/details/connection_impl.hpp:651-690 | From any idle state, pings in time leave the deadline where it is; after them the connection waits for the next ping, or for exactly the deadline, or has started its last message less than 100 ms before it |
| `IdleBound.DeadlineEnd` | include/details/connection_impl.hpp:412-418 | When that wait ends on time, the last message is started at the deadline |
| `IdleBound.IdleStart` | include/details/connection_impl.hpp:683-690 | A connection that runs out of messages gets the whole inactive timeout, whichever of the three it then does: await a ping, await the deadline, or (only with a timeout below 100 ms) start the last message at once |
| `IdleBound.LatePingRenews` | include/details/connection_impl.hpp:655-658 | A ping write that completes with nothing to post moves the deadline if and only if it completes at or after it |
| `WireStream.OutputOrder` | include/details/connection_impl.hpp:466-575 | In every run: headers, then messages and pings, then at most one last message and nothing after it; or a single closing answer; or nothing |
| `WireStream.StepShaped` | include/details/connection_impl.hpp:248-420 | Every handler keeps that order |
| `WireStream.SocketClientReads` | library/connection_base.cpp:175-206 | In every run of a WebSocket connection, a reader of RFC 6455 frames gets from what follows the headers exactly the texts and pings written, in order; only the close byte can follow them |
| `WireStream.ChunkClientReads` | library/connection_base.cpp:175-206 | In every run of a plain connection, a reader of the chunked coding gets exactly the non-empty texts and pings written, in order, and finds the last-chunk only where the last message was written |
| `ClientView.SocketClientGetsSent` | include/details/connection_impl.hpp:172-182 | In every run of a WebSocket connection, what a client decodes by RFC 6455 is the formatted texts of a prefix of what was passed to `send`, in order and once each, with nothing but pings in between; all of them when the connection is up and not writing |
| `ClientView.ChunkClientGetsSent` | include/details/connection_impl.hpp:172-182 | The same for a plain connection and a client that reads chunks by RFC 7230, with empty texts left out |
| `ClientView.PayloadsReceived` | include/details/connection_impl.hpp:500-575 | The payloads of a run's outputs are those texts and pings |
| `Delivery.RunsOfItsOwn` | include/details/connection_manager.hpp:164-262 | In every run of the strand each connection makes a run of its own, and what is sent to it there is exactly its mail: once each, in order, the messages of the sends by name or identity that found it registered and willing, and the null message of finish if it was registered then |
| `Delivery.StepParts` | include/details/connection_manager.hpp:164-262 | Each step of the strand, however many connections it touches, moves each connection by nothing, one or two of its own events |
| `Delivery.SocketClientGetsMail` | include/details/connection_manager.hpp:164-189 | In every run of the strand a WebSocket client decodes a prefix of its connection's mail, with nothing but pings in between, and all of it when the connection is up and not writing |
| `Delivery.ChunkClientGetsMail` | include/details/connection_manager.hpp:164-189 | The same for a plain client that reads chunks |
| `Delivery.StrandRun` | library/connection_manager_base.cpp:56-80 | The strand inside a run of the whole server makes a run of the strand with the same mail |
| `Delivery.ServerSocketClient` | include/details/connection_manager.hpp:164-189 | In every state of every run of the server, with listener threads and failed opens in between, a WebSocket client decodes a prefix of its connection's mail so far, all of it when the connection is up and not writing |
| `Delivery.ServerChunkClient` | include/details/connection_manager.hpp:164-189 | The same for a plain client that reads chunks |
| `Delivery.UndisturbedServes` | include/details/connection_manager.hpp:164-189 | In every run of the strand a connection whose headers are written and whose own part of the run holds no cause for its end is up and, whenever no write is outstanding, has been written all its mail |
| `Delivery.ServerServes` | include/details/connection_manager.hpp:164-189 | The same in every state of every run of the server |
| `StrandRuns.RegistryConsistent` | include/details/connection_manager.hpp:131-162 | In every run: both indexes hold the same connections; until finish `managed_` holds for exactly the registered ones and every channel counter is exact; after finish the registry is empty and inserting changes nothing; the listener is told of at most one insertion and one removal of each, in that order |
| `StrandRuns.RemovalIsSafe` | library/channels_stat_impl.cpp:90-110 | Whenever a registered connection leaves, no assertion in `dec` fails, for any of its channels |
| `StrandRuns.TargetsExact` | include/details/connection_manager.hpp:177-184 | The list built for a send holds, once each, exactly the connections of the range that pass the filter and have either no channels or the message's channel, not empty, among them |
| `StrandRuns.SendAllDelivers` | include/details/connection_manager.hpp:185-188 | The loop over that list delivers once to each connection in it and to no other, whatever the sends make of the registry meanwhile |
| `StrandRuns.SendByNameDelivers` | include/details/connection_manager.hpp:164-189 | A send by name reaches once exactly the connections registered under the name at the start that pass the filter and have no channels or the message's channel; `disconnected` fires exactly when no connection has the name |
| `StrandRuns.SendByIdDelivers` | include/details/connection_manager.hpp:191-215 | A send by identity reaches that connection under the same conditions and nobody else, and never fires `disconnected` |
| `StrandRuns.SubscribersGet` | library/formatters_data_channels.cpp:56-73 | When everybody passes, the connections with channels that get a message are, of the name, the registered subscribers of its channel, the very set whose size the channel's counter is; all those without channels get it too |
| `StrandRuns.FormatterFound` | library/formatters_data_channels.cpp:75-88 | In every run the channel of a queued message is not empty and among those of its connection: `assert(false)` in `find_formatter` is not reached |
| `StrandRuns.RunKeeps` | include/details/connection_manager.hpp:131-262 | Runs of handlers, sends, failed opens and finish keep the registry invariant and the routing of queued messages |
| `StrandInvariant.StepKeeps` | include/details/connection_manager.hpp:131-262 | Each strand step keeps it |
| `StrandInvariant.InsertKeeps` | include/details/connection_manager.hpp:131-145 | `insert_connection` keeps indexes, counters and the record of what the listener was told |
| `StrandInvariant.RemoveKeeps` | include/details/connection_manager.hpp:147-162 | `remove_connection` keeps them, and its counter assertions hold |
| `StrandInvariant.FinishKeeps` | include/details/connection_manager.hpp:236-262 | `finish` empties the registry first and closes every connection it held |
| `StrandInvariant.ManagedIsRegistered` | include/details/connection_impl.hpp:204-209 | Until finish `managed_` marks exactly the registered connections |
| `ConnectionManager.Manager.InsertConnection` | include/details/connection_manager.hpp:131-145 | Refused after finish, an exception for a duplicate, otherwise both indexes, the counters and the event |
| `ConnectionManager.Manager.RemoveConnection` | include/details/connection_manager.hpp:147-162 | Nothing after finish, otherwise both indexes, the counters and the event |
| `ConnectionManager.Manager.ListTargets` | include/details/connection_manager.hpp:177-184 | The loop that lists the allowed connections of an index range |
| `ConnectionManager.Manager.SendByName` | include/details/connection_manager.hpp:164-189 | The whole send over a registry that the sends themselves change |
| `ConnectionManager.Manager.SendById` | include/details/connection_manager.hpp:191-215 | The same by identity, without the `disconnected` event |
| `ConnectionManager.Manager.NotifyConnectionOpenedFailed` | include/details/connection_manager.hpp:217-234 | Closes the connection if it is still registered under the name |
| `ConnectionManager.Manager.FinishAllConnections` | include/details/connection_manager.hpp:236-262 | Empties the registry, then finishes and closes each connection it held |
| `ConnectionManager.Manager.CountIn` | library/formatters_data_channels.cpp:105-116 | Increments the counter of every channel of a connection, in map order |
| `ConnectionManager.Manager.CountOut` | library/formatters_data_channels.cpp:105-116 | Decrements them; every assertion on the way holds |
| `ChannelsStat.IncCounts` | library/channels_stat_impl.cpp:64-88 | `inc` adds one to that channel's counter (unless the name is empty) and changes no other; no zero counter and no empty inner map is stored |
| `ChannelsStat.DecCounts` | library/channels_stat_impl.cpp:90-110 | `dec`, when its assertions hold, takes one off that counter and changes no other; no zero counter and no empty inner map remains |
| `ChannelsStat.DecUndoesInc` | library/channels_stat_impl.cpp:64-110 | `dec` after `inc` never fails and restores the stored maps exactly |
| `ChannelsStat.TidyUnique` | library/channels_stat_impl.cpp:64-110 | The counters determine the stored two-level maps |
| `ChannelsStat.IncAllCounts` | library/formatters_data_channels.cpp:105-116 | All channels of a connection are counted once each |
| `ChannelsStat.DecAllCounts` | library/formatters_data_channels.cpp:105-116 | Positive counters of all channels of a connection suffice for every decrement of the loop |
| `ChannelsStat.ChannelsStat.Add` | library/channels_stat_impl.cpp:64-88 | The nested maps after `inc` |
| `ChannelsStat.ChannelsStat.Drop` | library/channels_stat_impl.cpp:90-110 | The nested maps after `dec`, with its three assertions |
| `NotificationRuns.ListenersSafe` | library/threaded_listener.cpp:29-68 | For any number of threads and listeners and any hash, in every interleaving: each listener sees of each connection at most one successful open and at most one close, after it; the events of a name are processed in push order, a prefix of those accepted; a guard is touched by one thread only |
| `NotificationRuns.RolledBackForGood` | library/threaded_listener.cpp:55-58 | Once an open was rolled back no listener hears of the connection again, whatever follows |
| `NotificationRuns.BothProcessed` | library/threaded_listener.cpp:45-68 | When open and close have both been processed, every listener saw both, or exactly those before the first thrower did |
| `NotificationRuns.FailedOpensReported` | library/threaded_listener.cpp:56-59 | In every run each rolled-back open is reported to the strand exactly once, and nothing else is |
| `Disconnects.EveryLossIsTold` | library/threaded_listener.cpp:44-49 | In every run, per name: the first listener has been told of as many disconnections as were begun, each further one of as many as the one before it let pass without throwing, less the one call that is due |
| `Disconnects.ReportsAreTold` | library/connection_manager_base.cpp:56-80 | In every run of the server: once queue and thread of a name are idle and not finished, the first listener has been told exactly once of each disconnection the manager reported, the further ones of those that the one before let pass |
| `NotificationInvariant.StepKeeps` | library/threaded_listener.cpp:29-68 | Each push, pop, guard test, callback and guard update keeps the protocol invariant |
| `NotificationInvariant.NameOrder` | library/threaded_listener.cpp:29-42 | Per receiver name, what is processed is a prefix of what was accepted, in push order |
| `NotificationInvariant.ConnOrder` | library/threaded_listener.cpp:92-141 | The same per connection: its two events are in one queue |
| `NotificationInvariant.Drained` | library/threaded_listener.cpp:29-42 | When a connection's queue and thread are idle, all its accepted events have been processed |
| `Server.ListenersSeeProperHistories` | library/connection_manager_base.cpp:56-80 | The same guarantees for the whole server: connections, registry and shutdown feeding the listener queues, with failed opens coming back to the strand |
| `Server.GoneConnectionsAreClosed` | library/connection_manager_base.cpp:56-80 | A connection whose insertion and removal the manager has told, before a finish or without one, and which has nothing pending in a queue still running: every listener saw its open and its close, or its open was rolled back |
| `Server.RolledBackForGood` | library/threaded_listener.cpp:55-58 | Once an open was rolled back, no listener hears of the connection again in any server run, although the report of the failed open makes the strand close and remove it |
| `Server.FailedOpensReported` | library/threaded_listener.cpp:56-59 | In every server run the strand is told once of each rolled-back open and of no other, or the report is on its way |
| `Server.NextKeeps` | library/connection_manager_base.cpp:56-80 | Every strand step, thread step and report keeps the two halves in agreement: a queue accepted exactly what the listener was told, up to its finish |
| `Notification.Index` | library/threaded_listener.cpp:78-90 | A name always goes to the same existing queue |
| `ThreadedListener.StepsAreProcessing` | library/threaded_listener.cpp:44-68 | Taking an item and running its callbacks one step at a time leaves the guards, calls and reports that `process_item` leaves |
| `ThreadedListener.ThreadedListener.ProcessItem` | library/threaded_listener.cpp:44-68 | Guards, listener calls and reports after one item, for every pattern of throwing listeners |
| `ThreadedListener.ThreadedListener.ThreadTurn` | library/threaded_listener.cpp:29-42 | One turn of a thread takes the whole queue and processes it in order, or ends when the queue has finished |
| `ThreadedListener.ThreadedListener.Accept` | library/threaded_listener.cpp:92-141 | An event goes to the queue of its name and to no other |
| `CompoundListener.OpenAllOrNothing` | library/compound_listener.cpp:81-104 | Without a thrower every listener ends up open; otherwise exactly those before the first thrower were opened, and each of them was closed again once |
| `CompoundListener.CloseVisitsAll` | library/compound_listener.cpp:106-119 | Every listener is closed exactly once, the last one first, whatever is thrown |
| `CompoundListener.LostToFirstThrower` | library/compound_listener.cpp:121-129 | A disconnection is told to the listeners in order, once each, up to and including the first that throws |
| `CompoundListener.StepsAreOpen` | library/compound_listener.cpp:81-104 | The protocol's single steps make the calls of the compound open, in the same order |
| `CompoundListener.StepsAreClose` | library/compound_listener.cpp:106-119 | And those of the compound close |
| `CompoundListener.Listeners.NotifyConnectionOpened` | library/compound_listener.cpp:81-104 | The forward loop with its backward rollback makes exactly those calls and throws when some listener does |
| `CompoundListener.Listeners.NotifyConnectionClosed` | library/compound_listener.cpp:106-119 | The backward loop |
| `CompoundListener.Listeners.NotifyDisconnected` | library/compound_listener.cpp:121-129 | The loop up to the first listener that throws |
| `Guard.Guard.Open` | library/guard.cpp:21-28 | Succeeds once, from the first state only |
| `Guard.Guard.Commit` | library/guard.cpp:30-37 | Allows the close after a successful open |
| `Guard.Guard.Cancel` | library/guard.cpp:39-46 | Forbids the close after a failed open |
| `Guard.Guard.Close` | library/guard.cpp:48-55 | Succeeds once, after a commit only |
| `ThreadedQueue.ThreadedQueue.Push` | include/details/threaded_queue.hpp:96-105 | Appends unless finished |
| `ThreadedQueue.ThreadedQueue.Pop` | include/details/threaded_queue.hpp:67-80 | The oldest item, or nothing once finished: items queued before `finish` stay |
| `ThreadedQueue.ThreadedQueue.PopAll` | include/details/threaded_queue.hpp:82-94 | All items in order, or nothing once finished |
| `ThreadedQueue.ThreadedQueue.SwapData` | include/details/threaded_queue.hpp:120-124 | Exchanges the contents |
| `MessageQueue.NoLostWakeup` | library/message_queue.cpp:69-80 | In every run pops posted plus senders between push and post are at least the queued messages; when there are none and the strand is free, everything accepted has been handled, in push order and once each |
| `MessageQueue.SentOnce` | library/message_queue.cpp:25-87 | In every run from the start in which no send of the manager throws, what was sent is, once each and in push order, a prefix of the messages that were accepted, and all of them when no pop is posted or about to be and the strand is free |
| `MessageQueue.AllDelivered` | library/message_queue.cpp:25-58 | When no send of the manager throws, every handled message was sent: nothing is dropped |
| `MessageQueue.FinishRefuses` | library/message_queue.cpp:60-64 | After `finish` nothing more is accepted, and what was accepted is still handled or on its way |
| `MessageQueue.StepKeeps` | library/message_queue.cpp:25-87 | Push, post, swap, each single send, and finish keep the accounting of both queues |
| `MessageQueue.DeliveriesArePop` | library/message_queue.cpp:25-58 | The protocol's single sends add up to the loop of a pop: a thrown exception drops the rest of the batch |
| `MessageQueue.PoppedExact` | library/message_queue.cpp:25-58 | A pop takes every letter of its batch and sends exactly those before the first that throws |
| `MessageQueue.Queue.Pop` | library/message_queue.cpp:25-58 | A pop empties its queue and handles the batch up to the first exception |
| `MessageQueue.Queue.PushMessage` | library/message_queue.cpp:95-111 | Appends to the right queue while messages are accepted |
| `HandlerInvoker.TakenAndAnsweredOnce` | library/threaded_handler_invoker.cpp:70-119 | In every run requests leave the queue in push order, once each (taken plus queued is what was accepted), and none is answered twice |
| `HandlerInvoker.AllAnswered` | library/threaded_handler_invoker.cpp:70-119 | When nothing is queued, held, on its way or dropped, every accepted request has been answered exactly once |
| `HandlerInvoker.ToldTheVerdict` | library/threaded_handler_invoker.cpp:70-96 | A connection is told of success if and only if its handler returned, or threw something that leaves neither a code nor a message; otherwise it is told exactly the code or the message that the handler's exception carried, or that of the finish |
| `HandlerInvoker.NobodyIsForgotten` | library/threaded_handler_invoker.cpp:70-153 | In every run: every request pushed before `finish` is accepted; none is lost unless the strand drops it or a connection throws in the closing loop; and until `finish` some worker or the strand can go on for as long as a request is unanswered |
| `HandlerInvoker.SilentFailure` | library/threaded_handler_invoker.cpp:87-90 | A concrete run in which a handler fails with an empty message and the connection is told of success |
| `HandlerInvoker.EmptyForEver` | library/threaded_handler_invoker.cpp:102-119 | After the swap of `wait_for_complete` the queue stays empty and nothing more is accepted or taken |
| `HandlerInvoker.StepKeeps` | library/threaded_handler_invoker.cpp:70-153 | Each push, pop, handler call, dispatch, swap and closing answer keeps the accounting |
| `HandlerInvoker.OnePlace` | library/threaded_handler_invoker.cpp:70-119 | Every accepted request is in exactly one place: queued, held by a worker, on its way to the strand, in the closing loop, answered or dropped |
| `HandlerInvoker.Invoker.InvokeHandler` | library/threaded_handler_invoker.cpp:135-148 | Forbidden, refused after finish, or queued with a fresh holder |
| `HandlerInvoker.Invoker.ThreadTurn` | library/threaded_handler_invoker.cpp:70-96 | One turn of a worker: the oldest request, with the error its handler left |
| `HandlerInvoker.Invoker.WaitForComplete` | library/threaded_handler_invoker.cpp:102-119 | Finishes the queue, empties it and answers what was left with the finish error, in order |
| `LineReader.Lossless` | include/details/line_reader.hpp:64-90 | Repeated reading terminates and the lines and breaks it returns, joined, are the input |
| `LineReader.ReadIsLine` | include/details/line_reader.hpp:64-90 | What is read is a line: followed by a maximal CR/LF run with no blank after it, each run inside followed by a blank, `multiline` exactly when there is one inside |
| `LineReader.OneLine` | include/details/line_reader.hpp:64-90 | There is only one such line at a position |
| `LineReader.LinesAreTheDivision` | include/details/line_reader.hpp:64-90 | A list of lines divides the input that way if and only if it is what repeated reading returns |
| `LineReader.LaterLinesStart` | include/details/line_reader.hpp:83-86 | Every line after the first starts with a byte that is neither blank nor CR/LF |
| `LineReader.Reader.ReadLine` | include/details/line_reader.hpp:64-90 | The reader's loop returns that line and moves behind its break |
| `Text.FindIfNot` | include/details/string_utils.hpp:38-44 | The loop finds the first position that does not satisfy the predicate |
| `Text.TrimCore` | include/details/string_utils.hpp:46-62 | Trimming removes exactly the spaces around a core that neither starts nor ends with one |
| `Text.SplitAt` | include/details/string_utils.hpp:76-89 | A split at the first delimiter gives back the two parts around it |
| `RequestAgreement.AcceptsComplete` | include/details/request_checker.hpp:46-79 | The completeness test accepts with break b if and only if the request line is good and ended, b is the first header break, and eight bytes of body follow when a Sec-WebSocket-Key1 header precedes it |
| `RequestAgreement.ParserAgrees` | include/details/request_impl.hpp:128-151 | If the test accepts and the parser does not throw, the parsed body is what follows the accepted break; with a Sec-WebSocket-Key1 header, folded or not, it has at least eight bytes |
| `RequestAgreement.ParserBody` | include/details/request_impl.hpp:128-151 | The parser stops at the first header break, or takes no body when there is none |
| `RequestAgreement.KeyHeaderAgrees` | include/details/request_helper.hpp:88-103 | The parser stores a Sec-WebSocket-Key1 header for a line if and only if the test takes that line for one, wherever it is folded |
| `RequestAgreement.RequestLineAgrees` | include/details/request_helper.hpp:37-57 | The test takes a request line (read with its folds) if and only if the parser does (without them) and a blank directly follows the method; the targets then differ by the folds only |
| `RequestAgreement.ThrowsApart` | include/details/request_checker.hpp:58-60 | For a request the parser accepts whose first line has ended, the test throws if and only if the method is not directly followed by a blank |
| `EarlyStop.StopsTooSoon` | include/details/request_checker.hpp:120-130 | A concrete incomplete request with a folded method at which reading stops and which the parser accepts |
| `RequestStability.AcceptanceStable` | include/details/request_checker.hpp:62-75 | If p is accepted, p + q is accepted with the same header break if and only if no blank follows the CR/LF run of that break |
| `RequestStability.StableUnlessBlank` | include/details/request_checker.hpp:62-75 | In particular for every q whose first byte other than CR/LF, if any, is not a blank |
| `RequestStability.ReadExtended` | include/details/line_reader.hpp:64-90 | How one line changes when more data arrive: not at all, by a longer break, or by being folded |
| `RequestChecker.HttpRequestChecker` | include/details/request_checker.hpp:46-79 | The loop of the test computes the decision that the results above are about |
| `RequestChecker.RequestChecker` | include/details/request_checker.hpp:95-131 | The match condition: too short, too long, policy request, or the test, an exception of which ends the reading |
| `MatchCondition.StopsWhenComplete` | include/details/request_checker.hpp:95-131 | For data of 16 bytes up to the limit that do not begin a policy request: reading stops if and only if the request is complete, or its first line has ended and is no request line; it stops where the last header line ends, or at the end of the data for a key request and for an error, and otherwise answers "continue" |
| `MatchCondition.StopsBySize` | include/details/request_checker.hpp:95-131 | Below 16 bytes it goes on, above the limit it stops, a policy request is read up to 23 bytes |
| `MatchCondition.BreakIs` | include/details/request_helper.hpp:59-86 | Headers end exactly after two LF or two CRLF at the start of a CR/LF run |
| `Unfolding.NameUnbroken` | include/details/request_impl.hpp:196-207 | A folded text without its breaks has a given name after trimming if and only if it has it with them |
| `Unfolding.SplitUnbroken` | include/details/request_impl.hpp:196-207 | A text splits at its first delimiter in the same place with and without its breaks |
| `Request.RequestImpl.Init` | include/details/request_impl.hpp:128-151 | The parser over the object's fields: the error it throws, or target, parameters, headers, cookies and body |
| `Request.RequestImpl.ParseHeaders` | include/details/request_impl.hpp:139-150 | The loop over header lines up to the break |
| `Request.RequestImpl.ParseQueryString` | include/details/request_impl.hpp:172-180 | Adds the pairs of a query in order |
| `Request.RequestImpl.ParseCookies` | include/details/request_impl.hpp:163-170 | Adds the cookies of a header; of equal names the first stays |
| `Request.RequestImpl.HandleHeadersLine` | include/details/request_impl.hpp:218-238 | One header line: no colon, a range header, cookies, or stored under its name unless that is there |
| `HeaderFields.RequestComesBack` | include/details/request_impl.hpp:128-238 | Any printed request parses back: the target, its parameters, under each lower-cased name the value of the first field of that name, all printed cookies in order of which the first of equal names stays, and the body; with a range header it is refused instead |
| `HeaderFields.ParametersComeBack` | include/details/request_impl.hpp:128-238 | The same for a path with printed parameters, which come back in order |
| `HeaderFields.FieldTaken` | include/details/request_impl.hpp:218-238 | A line `name: value` is stored as that name and that value |
| `HeaderFields.FoldedFieldTaken` | include/details/request_impl.hpp:202-215 | A field folded inside its value is stored with the line breaks left out |
| `QueryString.QueryRoundTrip` | include/details/request_impl.hpp:172-180 | Any pairs of byte strings, printed as code=code and joined by any mix of & and ;, parse back to the same pairs in order |
| `QueryString.CookiesRoundTrip` | include/details/request_impl.hpp:163-170 | Pairs printed as a cookie header parse back, the first of equal names winning |
| `QueryString.TargetRoundTrip` | include/details/request_helper.hpp:37-57 | A target without blanks comes back from its request line |
| `QueryString.RequestLineExact` | include/details/request_helper.hpp:37-57 | A request line is accepted if and only if its method is GET and its protocol HTTP/1.1, in any case; which error it is otherwise |
| `QueryString.RequestRoundTrip` | include/details/request_impl.hpp:128-180 | A request for a path with printed parameters, if it parses, has that target and exactly those parameters |
| `UrlCode.RoundTrip` | include/details/urlencode.hpp:29-103 | Decoding undoes encoding for every byte string, whatever follows it |
| `UrlCode.Injective` | include/details/urlencode.hpp:29-64 | Different byte strings have different codes |
| `UrlCode.PlainStays` | include/details/urlencode.hpp:38-63 | A code equals its text if and only if the text has letters, digits and the nine marks only |
| `UrlCode.PlusIsBlank` | include/details/urlencode.hpp:79-81 | A plus sign decodes to a blank |
| `UrlCode.OthersStay` | include/details/urlencode.hpp:82-99 | Other characters decode to themselves, a percent sign without two characters after it too |
| `UrlCode.PercentOctet` | include/details/urlencode.hpp:82-95 | A percent sign and two hexadecimal digits of either case decode to the byte they denote |
| `UrlCode.UrlEncode` | include/details/urlencode.hpp:29-64 | The loop computes the code |
| `UrlCode.UrlDecode` | include/details/urlencode.hpp:67-103 | The loop computes the decoded text |
| `WebSocket.StreamDecodes` | library/websocket_info.cpp:320-354 | The frames written for any messages decode, by sections 5.2 and 5.4 of RFC 6455, to exactly those messages |
| `WebSocket.FramedWell` | library/websocket_info.cpp:329-354 | A non-empty message of n bytes takes ceil(n/125) frames with payloads of 1 to 125 bytes, a text frame and then continuations, the last one final and only that, n + 2*ceil(n/125) bytes in all |
| `WebSocket.WriteMessage` | library/websocket_info.cpp:320-354 | The loop appends those frames to the stream |
| `Chunks.StreamReads` | library/connection_base.cpp:175-192 | The chunks printed for any messages and the last one decode, by section 4.1 of RFC 7230, to the non-empty messages in order, with no zero-size chunk among them |
| `Chunks.ChunkReads` | library/connection_base.cpp:187-190 | A printed chunk is read back, whatever follows |
| `Chunks.LacksFinalEndl` | library/connection_base.cpp:194-206 | What is sent with the last chunk lacks exactly the final CRLF of a whole chunked body |
| `Chunks.PrintMessageContent` | library/connection_base.cpp:175-192 | Appends one chunk, or nothing for an empty message, and says which |

## Left out

* Sockets, SSL, acceptors and clocks: completions and times are inputs of the model.
* Liveness through `server_impl::stop` and `io_service::stop`: only safety is proved; a dispatched item may be dropped.
* Handshake digests, WebSocket headers, status lines, dates and other response headers: the printers start after the headers.
* Framing before RFC 6455: `Draft76` connections take part in the state machine only, their bytes are not modelled.
* Masked frames and everything else a client may send: the server does not read them.
* Reuse of numeric ids and reference counting.
* The width of the counters: `ChannelsStat` counts in natural numbers, the program in `unsigned int`.
* The spelling of header names: `Request` keys headers by their lower-cased names, which is how the program compares them.
* `ParamsOf` keeps pairs in insertion order, where the program stores a multimap; the accessors' choice among equal names is not modelled.
* Per-channel data of formatters: filters are evaluated when a message is sent and data updated when it is printed, and nothing is claimed about them.
* `load_names` and `load_keys` of the channel statistics, the single-threaded handler invoker, settings, loggers, Python bindings and the web chat.
- IdleBound.PingsFit: assumes that timers fire on time and that pings are written before the deadline; `IdleBound.LatePingRenews` says what happens otherwise.
- QueryString.RequestRoundTrip: is about the path and the parameters before any rest that parses; `HeaderFields.ParametersComeBack` is about printed headers and needs no such assumption.
- WireStream.ChunkClientReads: is about the bytes handed to `async_write`; that the network delivers them is not modelled.
- WireStream.SocketClientReads: is about the bytes handed to `async_write` and leaves the close byte out of what is decoded.
- ConnectionManager.Manager.SendByName: exceptions from `conn->send` are not modelled, since the handler catches them.
