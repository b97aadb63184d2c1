# MADS WebSockets bridge: a verified model

The bridge carries JSON messages between a MADS broker and WebSocket clients. Two threads share its
state: the bridge thread polls MADS, publishes what clients sent and broadcasts what MADS sent; the
service thread runs the WebSocket library's callbacks, which fill receive buffers and empty transmit
queues. The service thread gives up the lock while a frame is being sent.

This project models that engine as a transition system in which every critical section, and every
unlocked read or send between two of them, is one step of one thread, and proves what holds in every
interleaving. The bridge's objects are classes whose methods are proved to make those steps; `Tick` and
the writeable callback are programs in which the other thread may run before every critical section and
every unlocked read or send of shared state. (Polling MADS is one step: the service thread shares nothing
with it.) Around the engine stand the command-line client, the HTTP body writer, the state machine that
drives the bridge, and the logic of the browser page.

| file | contents |
|---|---|
| `Common.dfy` | JSON values, messages, the JSON library as two uninterpreted functions, topic matching |
| `TopicPath.dfy` | base paths, topics in URIs, client addresses, the browser's path normalisation |
| `Reassembly.dfy` | fragments to messages, messages to frames |
| `Transport.dfy`, `MadsBroker.dfy` | what each critical section does to the shared state |
| `Engine.dfy` | the transition system: both threads, the network, the history log |
| `Coherence.dfy`, `Delivery.dfy`, `Wakeup.dfy`, `Inbound.dfy`, `Accounting.dfy`, `Ticks.dfy`, `Health.dfy` | invariants and the theorems over all reachable states |
| `Server.dfy`, `Bridge.dfy` | the transports, the core and the service callbacks as classes |
| `Client.dfy` | the command-line client's two threads |
| `Http.dfy` | chunked HTTP bodies |
| `Lifecycle.dfy` | the state machine and the runtime |
| `Topics.dfy`, `History.dfy`, `Trees.dfy` | the browser page: topic lists, publish history, message trees |
| `TopicOrder.dfy`, `Cards.dfy`, `Containers.dfy`, `ListenTab.dfy` | the page's message cards: the order of topics, the steps of a refresh, what it does to any container, and the tab that owns them |

`dafny verify dfyconfig.toml` checks everything.

## What is assumed about the outside

- A connection passes its filter, is established, and then receives, writes and is told it is closed
  once. After a callback fails, only the closing callback follows. The request URI reads the same in the
  filter and when the connection is established. A handle may be used again after its connection closed.
- The library calls back on one thread. A writeable callback comes only to a live connection that asked
  for one, and uses the request up. Wake-ups coalesce into one pending bit.
- JSON parsing is a partial function and printing a total one; nothing else is known about them.
- The agent's `receive` returns something other than JSON after finitely many messages, and the service
  thread makes finitely many steps during one tick.

## What the code does that its description does not say

- A run that reaches STOP has never ticked. A stop request or a failed tick in RUN changes nothing,
  because the filter of RUN turns STOP into no change (`StopsExactlyWhenAskedInItsOnlyIdleTurn`,
  `RunIsAbsorbing`); `reset` is never called (`ResetNeverFires`). With the bridge's own MADS transport a stop
  request never ends a run at all: it is only taken up by ticks (`NoStopRequestEndsARun`).
- The client can exit successfully with lines unsent, when the connection closes after the close was
  requested (`ErrorFreeExitCanLoseLines`). Then it has sent everything exactly when the queue was empty as
  the closing callback came (`ClosingCallbackLosesExactlyTheQueue`). An interrupt is the only other cause
  of an exit without error and with lines unsent (`ErrorFreeExitCauses`); once nothing more is typed, what is
  lost is exactly the queue at the locked body of the last turn (`LastBodyLosesExactlyTheQueue`), or at an
  interrupt between two turns (`InterruptLosesExactlyTheQueue`).
- The page and the server agree on the base path exactly when the configured path is empty or has a
  character other than a slash (`BrowserAgreesWithServer`).
- A card for the empty topic is never found again, and each refresh adds another (`EmptyTopicTwice`,
  `BlankCardsPileUp`).
- A topic that every plain object inherits, such as `constructor`, makes every refresh throw
  (`InheritedNameThrows`). It throws exactly when there is a message of such a topic; keys before the first
  one have their cards by then, later cards are untouched (`RefreshOfAnyContainer`).
- So a refresh shows exactly the topics if and only if no topic is inherited and there was no card of the
  empty topic (`RefreshIsExactIff`).
- A message of the topic `__proto__` goes to the accessor of that name instead of being stored, unless an
  earlier one took the accessor away (`Store`). No card is ever stale on the page, so what the stored
  messages inherit makes no other difference.

## Model

| member | source | states |
|---|---|---|
| TopicPath.ComputeNormalizedBasePath | src/bridge.cpp:59-70 | the loop computes the normal form of a base path |
| TopicPath.NormalizeBasePathMeaning | src/bridge.cpp:59-70 | the empty path becomes `/mads`; any other result starts with a slash, has no other trailing slash, and is the rooted input up to trailing slashes |
| TopicPath.NormalizeIsIdempotent | src/bridge.cpp:59-70 | normalising twice is normalising once |
| TopicPath.TopicFromUriFactors | src/bridge.cpp:245-274 | a URI names topic t if and only if it is base, slash, non-empty t without `?` or `#`, and nothing more or something that begins with one of these |
| TopicPath.TopicRoundTrip | src/bridge.cpp:245-274 | the topic put behind a base path is the topic read back |
| TopicPath.ComputeAddress | src/main/ws_client.cpp:210-219 | the two trimming loops compute the built address |
| TopicPath.ClientReachesTopic | src/main/ws_client.cpp:210-219 | a built address is the host part without trailing slashes, the root, and the topic without leading slashes; a default server reads that topic up to the first `?` or `#` |
| TopicPath.BrowserNormalizePathMeaning | web/index.html:278-282 | the page makes `/mads` of a path of white space or slashes, and of any other the rooted path without its trailing slashes |
| TopicPath.BrowserAgreesWithServer | web/index.html:278-282 | the page's normalisation keeps the server's path exactly when the configured path is empty or not all slashes |
| Reassembly.CutsAreInvisible | src/bridge.cpp:769-783 | any cutting of any messages into fragments reassembles to the same messages and the same unfinished text |
| Reassembly.ParsedAll | src/bridge.cpp:772-776 | texts that all parse give one message each, in order, on the session's topic |
| Reassembly.PayloadsMonotone | src/bridge.cpp:1045-1052 | more broadcasts only extend what a subscription is owed |
| Reassembly.PayloadsOrigin | src/bridge.cpp:1045-1052 | every frame owed carries a broadcast message the subscription takes |
| Reassembly.PayloadsListTheTaken | src/bridge.cpp:1045-1052 | what a subscription is owed are the printed bodies of exactly the messages of its own topic, or of all messages if it is `_all`, in order |
| Transport.PendingAfterPush | src/bridge.cpp:1045-1052 | a broadcast adds exactly one waiting frame per session that takes it |
| MadsBroker.PollMeaning | src/bridge.cpp:524-554 | polling queues exactly the messages of the receipts up to the first that is neither control nor JSON; an exception there costs health, and otherwise, and only then, a stop request is taken up |
| MadsBroker.RoutedListsTheOthers | src/bridge.cpp:538-545 | what is routed of those receipts are, in order, the ones not on the topic `control`, each with its topic and parsed payload |
| MadsBroker.RoutedIsNeverControl | src/bridge.cpp:538-541 | no message on the control topic is routed |
| Coherence.MissingTopicIsUnreachable | src/bridge.cpp:733-752 | in every reachable state the filter's check makes the missing-topic branch of ESTABLISHED impossible |
| Coherence.CoherentStep | src/bridge.cpp:733-832 | every step keeps sessions, connections and the frame being sent in agreement |
| Delivery.ExactlyOnceInOrder | src/bridge.cpp:788-822 | frames written followed by the unsent queue equal, in order, the payloads broadcast since the session was established that its topic takes |
| Delivery.DeliveredExactlyTheTaken | src/bridge.cpp:1045-1052 | position by position, frames written and unsent queue are the printed bodies of exactly the messages broadcast since the session was established on its topic, or of all of them for `_all` |
| Delivery.AllSubscribersGetEverything | src/bridge.cpp:1046-1051 | a session on `_all` gets every message broadcast since it was established, once and in order |
| Delivery.ClosedConnectionsGotAPrefix | src/bridge.cpp:759-764 | a closed connection was written a prefix of what was broadcast while it lasted |
| Delivery.PoppedFrameIsWrittenFrame | src/bridge.cpp:796-815 | whatever is pushed between peek and pop, the frame popped is the frame written, and it is counted once |
| Delivery.DeliveredRun | src/bridge.cpp:754-822 | after any run of both threads, delivery is exact for open and closed connections at once |
| Wakeup.NoLostWakeup | src/bridge.cpp:788-832 | a live connection with a queued frame has asked for a turn, or a wake-up is pending or about to be raised, or its frame is being sent |
| Wakeup.NoTurnForNothing | src/bridge.cpp:788-822 | in every reachable state a turn to write is asked for only by a session with a frame to send, so no writeable callback finds its queue empty |
| Wakeup.DrainStep | src/bridge.cpp:813-831 | every wake, write, close or signal step uses up some of a computable budget |
| Wakeup.DrainEnabled | src/bridge.cpp:813-831 | while anything is queued for a session, the bridge has a step of its own to take: finish a send, peek at that queue, wake, signal, or close that connection if a callback of it failed; never the close of a working connection |
| Wakeup.DrainDelivers | src/bridge.cpp:788-831 | every run of draining steps, closes by peers included, is bounded by the budget, and where the bridge has no step left of its own every session has an empty queue and was written all it was owed |
| Wakeup.DeliveriesServeEverySession | src/bridge.cpp:788-831 | a run without closes and failed writes keeps all sessions and, once the bridge has no step left, has served each of them in full |
| Wakeup.EverySessionCanBeServed | src/bridge.cpp:788-831 | from every reachable state in which no callback failed there is such a run to the end, within the budget |
| Inbound.InboundIsWholeMessages | src/bridge.cpp:765-786 | what arrived from a live connection is the parse of its whole messages, tagged with its topic, in order, and the buffer is the rest |
| Inbound.CuttingDoesNotMatter | src/bridge.cpp:765-786 | the same messages cut and interleaved differently arrive the same |
| Inbound.ReadRun | src/bridge.cpp:765-786 | after any run, arrivals are exact for open and closed connections, and after text that is not JSON |
| Accounting.CountersBalance | src/bridge.cpp:1135-1158 | enqueued is written plus queued plus discarded at close; accepted is closed plus live sessions; received and published count messages |
| Accounting.ClientCountIsNeverStale | src/bridge.cpp:1118-1128 | while the change flag is clear, the count last reported is the number of sessions |
| Accounting.PublishedIsAPrefix | src/bridge.cpp:434-446 | what is published is a gap-free prefix of WebSocket arrivals; dropped messages are in number at most the failed ticks |
| Accounting.BroadcastIsAPrefix | src/bridge.cpp:448-460 | what is broadcast is a gap-free prefix of the non-control JSON received; dropped messages are in number at most the failed ticks |
| Accounting.TickDropsAtMostOne | src/bridge.cpp:430-481 | a stretch of a run that counts one failed tick drops at most one message, and one that counts none drops none |
| Accounting.FailureIsForGood | src/bridge.cpp:430-481 | after any run health is only ever lost, and no more messages are dropped than ticks fail in it; without MADS health nothing more is published, without WebSocket health nothing more is admitted to broadcast |
| Ticks.GoodTickFinishesItsWork | src/bridge.cpp:430-481 | a tick that does not fail, in any interleaving, publishes everything that had arrived, broadcasts everything queued and everything polled, leaves the MADS queue empty, and takes up the stop request |
| Ticks.FailedTickMeaning | src/bridge.cpp:430-481 | where ticks fail the core is unhealthy and wants to stop, and a transport has failed, or the core was unhealthy to begin with |
| Health.TicksFailExactly | src/bridge.cpp:439-481 | over any run, the failed ticks are exactly those that find a failing publication or broadcast, or a transport unhealthy at their last checks, or an unhealthy core; the core is healthy exactly if there was none, and wants to stop exactly if a failure or a stop request was found |
| Health.WsHealthIsLostExactly | src/bridge.cpp:744-807 | over any run the WebSocket transport loses its health exactly by a short write, a whole message that is not JSON, or an established path without a topic |
| Health.MadsHealthIsLostExactly | src/bridge.cpp:550-571 | over any run the MADS transport loses its health exactly by an exception in a poll or a publication |
| Health.StopIsRequestedExactly | src/bridge.cpp:547-549 | over any run the MADS transport asks to stop exactly if a poll that ends without an exception finds the agent no longer running |
| Health.CountFlagIsSetExactly | src/bridge.cpp:757-763 | until the count is asked for, the change flag is set exactly by accepted and closed connections |
| Accounting.EndToEnd | src/bridge.cpp:529-545 | from the agent to the wire, every connection was written a prefix of what its topic takes of the messages routed since it connected, and never a control message |
| Server.WsImpl.OnFilter | src/bridge.cpp:733-743 | a connection is let through exactly when its path names a topic |
| Server.WsImpl.OnEstablished | src/bridge.cpp:744-758 | adds the session, counts it, raises the change flag; or fails on a missing topic |
| Server.WsImpl.OnClosed | src/bridge.cpp:759-764 | removes the session, counts it, raises the change flag |
| Server.WsImpl.OnReceive | src/bridge.cpp:765-787 | appends the fragment; a whole message is parsed and queued on the session's topic and empties the buffer, or costs health and ends the connection; nothing else changes |
| Server.WsImpl.PopWritten | src/bridge.cpp:810-821 | drops the written frame, counts it, and asks for a turn exactly if more is queued |
| Server.WsImpl.OnWaitCancelled | src/bridge.cpp:824-832 | the loop asks for a turn for exactly the sessions with a backlog |
| Server.WsImpl.PushToTakers | src/bridge.cpp:1044-1052 | the loop, in any order, appends the payload to exactly the sessions on `_all` and on the message's topic, leaves the others alone, and counts them |
| Server.WsImpl.PopIncoming | src/bridge.cpp:1061-1072 | takes the first inbound message if there is one |
| Server.WsImpl.ConsumeClientCountChanged | src/bridge.cpp:1118-1128 | returns the number of sessions and the flag, and clears the flag |
| Server.WsImpl.PendingFrames | src/bridge.cpp:1140-1145 | the loop of `stats` sums the queues |
| Server.MadsTransport.Poll | src/bridge.cpp:524-554 | the receive loop queues what the polling function says, loses health exactly by an exception, and takes up a stop request exactly if it ends without one |
| Server.MadsTransport.Publish | src/bridge.cpp:556-572 | publishes once and counts it, or fails and loses health |
| Server.MadsTransport.PopIncoming | src/bridge.cpp:574-581 | takes the first queued message if there is one |
| Server.MadsTransport.Start | src/bridge.cpp:505-522 | starts, or loses health |
| Bridge.BridgeCore.Tick | src/bridge.cpp:430-481 | one tick, preempted before every step, is a run of the transition system; it returns false exactly when the run counts one more failed tick, drops at most one message then and none otherwise; true means both transports and the core are healthy, everything that had arrived is published, everything received is broadcast and the stop request is taken up; false means the core is unhealthy and wants to stop, and names the causes |
| Bridge.BridgeCore.DrainToMads | src/bridge.cpp:434-446 | the first loop, preempted before every pop and every publication, is a run that stops at the first failure |
| Bridge.BridgeCore.DrainToWs | src/bridge.cpp:448-460 | the second loop, preempted before every pop and within every broadcast, is a run that stops at the first failure |
| Bridge.BridgeCore.Broadcast | src/bridge.cpp:1036-1059 | check, push and signal, preempted before each of them, are a run |
| Bridge.BridgeCore.ServeWriteable | src/bridge.cpp:788-823 | peek, send and pop, with the bridge thread let in where the lock is free, are a run; the callback fails exactly if there was a frame and the library did not take all of it, and then health is lost and the connection is closing |
| Bridge.BridgeCore.ServeReceive | src/bridge.cpp:765-787 | the receive callback makes the receive step |
| Bridge.BridgeCore.ServeWaitCancelled | src/bridge.cpp:824-832 | the wake-up callback makes the wake step |
| Bridge.BridgeCore.ServeEstablished | src/bridge.cpp:744-758 | the established callback makes the establish step |
| Bridge.BridgeCore.ServeClosed | src/bridge.cpp:759-764 | the closed callback makes the close step |
| Bridge.BridgeCore.ServeFilter | src/bridge.cpp:733-743 | the filter callback makes the filter step |
| Bridge.ServiceKeepsBridge | src/bridge.cpp:728-838 | no run of service steps touches the bridge thread's side |
| Client.CleanExitDrains | src/main/ws_client.cpp:144-159 | a loop that stops because the close was requested and the queue is empty has written every JSON line typed, in order |
| Client.WrittenIsAPrefix | src/main/ws_client.cpp:369-400 | in every interleaving, frames written are a prefix of the JSON lines typed |
| Client.ErrorFreeExitCauses | src/main/ws_client.cpp:161-171 | without an error a loop ends for one of three causes: the queue was drained, the connection closed after the close was requested, or an interrupt |
| Client.FailedConnectionEndsTheLoop | src/main/ws_client.cpp:149-151 | after a connection error, whatever else happens, the loop makes exactly two more steps, the locked body that clears the flag and the test that ends it, with an error |
| Client.NoLineIsForgotten | src/main/ws_client.cpp:152-154 | in every reachable state a queued line of a working connection has a turn asked for, a wake-up on its way, or a send under way that will ask; and no turn is asked for without a line |
| Client.CloseIsAskedByTheLastLine | src/main/ws_client.cpp:294-330 | the close is requested exactly by an empty line or the end of input, the last thing typed; an input thread that finished without one found the flag cleared |
| Client.StoppedInputTakesNoMore | src/main/ws_client.cpp:294-296 | once the flag is cleared it stays so and at most the one line already waited for is taken |
| Client.ClosingCallbackLosesExactlyTheQueue | src/main/ws_client.cpp:401-413 | when the connection closes after the close was requested, every continuation ends without error, with every JSON line written if and only if the queue was empty when the closing callback came |
| Client.LastBodyLosesExactlyTheQueue | src/main/ws_client.cpp:147-158 | once the flag is clear and nothing more is typed, the queue at the locked body decides whether every continuation has written every JSON line |
| Client.InterruptLosesExactlyTheQueue | src/main/ws_client.cpp:174-176 | the same for an interrupt between two turns of the loop once nothing more is typed |
| Client.RequestedCloseDrains | src/main/ws_client.cpp:144-159 | with the close requested, a working connection and successful writes, the loop takes at most two turns more than frames are queued, not counting turns that deny a requested write; it stops only by ending, with every JSON line written and no error |
| Client.ErrorFreeExitCanLoseLines | src/main/ws_client.cpp:401-413 | a run that exits without error and with a line unsent |
| Client.WsClient.InputLoop | src/main/ws_client.cpp:294-325 | the input thread, preempted before each of its steps, is a run that takes lines in order and ends |
| Client.WsClient.RunLoop | src/main/ws_client.cpp:144-171 | the service loop, with the input thread let in before each of its steps, is a run; if the drained queue ended it, every JSON line typed was written, in order; its exit code is 1 exactly if there was an error, a failed connection clears the flag and is an error, and without one the loop ended for one of the three causes |
| Client.WsClient.ServeTurn | src/main/ws_client.cpp:144-159 | one turn of the loop, whatever the library calls back, is a run back to the test of the flag |
| Client.WsClient.RunLoopBody | src/main/ws_client.cpp:147-158 | the locked body makes its step: it stops the loop on a failed connection and on a requested close with nothing queued, and asks for a turn if something is |
| Client.WsClient.TakeForWrite | src/main/ws_client.cpp:369-378 | takes the frame out of the queue before it is sent |
| Client.WsClient.SendFrame | src/main/ws_client.cpp:382-393 | a short write records the error and stops the loop |
| Client.WsClient.OnClosed | src/main/ws_client.cpp:401-413 | an unexpected close is an error, an expected one is not; either stops the loop and drops the connection |
| Http.BodiesAreConserved | src/bridge.cpp:907-949 | every completed transaction sent exactly the announced body, in chunks of 1 to 16384 bytes, as many as needed, only the last marked final |
| Http.TransactionsUnderWay | src/bridge.cpp:907-949 | a transaction under way has sent the body up to its offset and has a turn coming |
| Http.TransfersCompleteOnTime | src/bridge.cpp:914-949 | whatever other connections do, a transfer whose turns succeed is complete and conserved after exactly as many turns as its missing bytes need, and until then its next turn is requested; then the connection takes another request exactly if the library kept it |
| Http.RequestStartsTransfer | src/bridge.cpp:859-912 | a request that finds an asset and sends its headers starts a transfer of it with its first turn requested; any other answer fails the connection |
| Http.HealthIsLostExactly | src/bridge.cpp:931-935 | over any run of callbacks, the transport loses its health exactly by a chunk the library does not take in full |
| Http.SoundRun | src/bridge.cpp:859-957 | after any run of callbacks of any connections, every transfer, complete or under way, is exact |
| Http.HttpHandler.HandleWriteable | src/bridge.cpp:914-950 | the writeable callback writes the next chunk of up to 16384 bytes and asks for another turn, or completes and returns 0 if the connection is kept and -1 if not, or on a short write fails, changes nothing and loses health |
| Http.HttpHandler.HandleRequest | src/bridge.cpp:859-913 | a request sets the asset at offset zero, returns 0 and asks for a turn, or fails with -1 for an unknown path and 1 for missing headers or a disabled page; other connections are left alone |
| Lifecycle.RunsFollowTheGraph | src/fsm_agent.hpp:126-147 | at every turn of every run, IDLE and RUN have a core and both transports started, and every change of state is an edge of fsm.dot |
| Lifecycle.StopShutsDownOnce | src/fsm_agent.hpp:135-149 | a run that reaches STOP shuts down exactly once, stops both transports, and never ticks |
| Lifecycle.RunIsAbsorbing | src/fsm_agent.hpp:191-206 | nothing leaves RUN |
| Lifecycle.ResetNeverFires | src/fsm_agent.hpp:224-227 | the transition function of the edge from RUN to IDLE is never called |
| Lifecycle.StopsExactlyWhenAskedInItsOnlyIdleTurn | src/fsm_agent.hpp:155-221 | a run reaches STOP if and only if a stop is wanted in the turn right after the first successful initialisation |
| Lifecycle.NoStopRequestEndsARun | src/bridge.cpp:547-549 | with the bridge's own MADS transport a run reaches STOP if and only if a transport is unhealthy in the turn right after the first successful initialisation; a stop request never decides it |
| Lifecycle.BridgeRuntime.Init | src/bridge.cpp:1173-1221 | succeeds exactly if it had before or there are transports and both start; stops MADS again when the other refuses; does nothing the second time |
| Lifecycle.BridgeRuntime.Idle | src/bridge.cpp:1223-1236 | runs exactly if initialised, healthy and not asked to stop |
| Lifecycle.BridgeRuntime.Tick | src/bridge.cpp:1238-1250 | ticks an initialised runtime, and stops exactly if there is none, the tick fails or the core wants to |
| Lifecycle.BridgeRuntime.Stop | src/bridge.cpp:1252-1267 | stops both transports the first time only |
| Lifecycle.FiniteStateMachine.EvalState | src/fsm_agent.hpp:128-133 | one turn: state function, filter, transition function |
| Lifecycle.FiniteStateMachine.Run | src/fsm_agent.hpp:136-149 | turns until STOP, then the STOP state function once |
| Topics.ParseTopicsMeaning | web/index.html:303-307 | a topic is in the list exactly if it stands between two commas, or a comma and an end, with only white space around it, unless `_all` or nothing stands so |
| Topics.ParseTopicsOrder | web/index.html:304 | the list keeps the order in which topics are named first |
| Topics.JoinSnoc | web/index.html:317 | the list is shown with a comma and a space between items |
| Topics.ParseTopicsShape | web/index.html:303-307 | the list is not empty, has no duplicates, and is `_all` alone or free of it |
| Topics.PrintedListParsesBack | web/index.html:303-317 | parsing a printed list gives the list, for every input |
| History.HistoryIsTruncatedRecency | web/index.html:637 | after any sends, the history is the first twelve of the true recency list, without duplicates |
| History.Publisher.RecordSend | web/index.html:637 | after a send, the topic is in front and the history holds at most twelve entries, none new but the topic; from a stored history without duplicates, it is the first twelve of the recency list of everything sent so far |
| Trees.RestoringCollectedPathsCarriesFlags | web/index.html:465-488 | saving and restoring path strings carries the open flags position by position between any two trees |
| Trees.SavingAndRestoringIsLossless | web/index.html:465-488 | on a tree of the same shape the original flags come back exactly |
| Trees.CollectInto | web/index.html:465-476 | the recursive walk adds exactly the paths of open nodes |
| Trees.BuildShowsTheValue | web/index.html:490-512 | a built tree shows at every path what the value has there and nothing elsewhere: scalars, items numbered in brackets, members by name, each node as open as asked for |
| Containers.RefreshOfAnyContainer | web/index.html:401-462 | over every container that refreshes leave and every set of topics: a refresh throws exactly when some topic is an inherited name; it leaves one card per key before the first such name, in sorted order, with the latest message, earlier cards the same elements with their open nodes; behind them the untouched cards of later topics, none if it does not throw; and the cards of the empty topic there were, behind at most one new one |
| Containers.RefreshEqualsRebuild | web/index.html:401-462 | with no inherited name and no earlier card of the empty topic, a refresh leaves exactly one card per topic, in order, each with the latest message; earlier cards stay the same elements with their open nodes |
| Containers.RefreshIsExactIff | web/index.html:401-462 | a refresh shows exactly the topics if and only if no topic is an inherited name and no earlier card has the empty topic |
| Containers.RefreshDisplays | web/index.html:430-461 | after any refresh, one that throws too, every topic it got to has a card that shows its latest message in full |
| Containers.InheritedNameThrows | web/index.html:432-435 | a refresh of an empty container with one message throws exactly for the twelve names every object inherits, and then makes no card |
| Containers.EmptyTopicTwice | web/index.html:411-416 | an empty container refreshed twice with one message of the empty topic has two cards of it |
| Containers.BlankCardsPileUp | web/index.html:411-416 | every refresh, one that throws too, keeps the cards of the empty topic and adds one if that topic is reached |
| Cards.PlacingStopsAtThrow | web/index.html:430-461 | the loop does over its keys what a loop that never throws does over those before the first that throws |
| TopicOrder.SortKeysMeaning | web/index.html:403 | sorting gives the same topics, strictly ascending by their UTF-16 code units |
| TopicOrder.LessComparesCodeUnits | web/index.html:403 | the order by characters used in the proofs is the order by code units |
| ListenTab.Page.CollectExisting | web/index.html:411-416 | the loop builds the map from topic to card |
| ListenTab.Page.PlaceCards | web/index.html:430-461 | the loop updates or inserts card after card, until it throws at an inherited name without a card |
| ListenTab.Page.RenderMessages | web/index.html:401-462 | the whole refresh: it throws exactly when a message has an inherited name for its topic, and shows exactly the topics if and only if it does not throw and there was no card of the empty topic |
| ListenTab.Page.Store | web/index.html:344 | the message is stored under its topic, unless that is `__proto__` and the accessor takes it |
| ListenTab.Page.OnMessage | web/index.html:341-349 | the message is stored and the container refreshed; unless that throws, exactly when some stored topic is an inherited name, every stored topic has a card that shows its latest message in full; if it throws it is reported |
| ListenTab.Page.ClearMessages | web/index.html:396-399 | clearing leaves the placeholder alone |

## Left out

- Bridge.BridgeCore.Tick: the service thread makes finitely many steps while a tick runs; a client that sends faster than the tick publishes keeps the real loop going.
- Trees.SavingAndRestoringIsLossless: the restored tree is a value; `restoreOpenPaths` sets the flag of each DOM element in place, and aliasing of elements is not modelled.
- The client's listen mode, which prints what arrives, and clients of several topics: the model is of publish mode, which has one connection.
- Client.WsClient.InputLoop: the prompt, the history and the message about invalid JSON are not modelled.
- Topics with half of a surrogate pair: a Dafny string is made of whole characters.
- Client.LastBodyLosesExactlyTheQueue: an interrupt while lines are still typed leaves it to the user what is still queued after the last turn.
- Frames of 2^31 bytes or more, whose size the code narrows to `int` before comparing it with the result of `lws_write`.
- The unwrapping of a `topic` and `message` pair received on `_all` before the page stores it, and the order in which the page lists members named like numbers.
- Error texts, timestamps, ages and the formatting of `stats`: they are only displayed.
- `stop` and destruction of the transport: the theorems are about the transport between `start` and `stop`.
- The part of `broadcast`, `publish` and the pops that handles a transport without an implementation object or a context: a started transport has both.
- TLS, URI decoding, the listing of network interfaces, and everything inside the WebSocket library, the agent and the JSON library.
- Resolution of HTTP paths to assets, response headers and the bootstrap document: a request is given its answer.
- The terminal banner, key presses, QR codes, command-line parsing, styling and local storage.
- Exceptions that leave the state machine, and the shutdown `main` then does.
