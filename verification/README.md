# TaskBridge: delivery, actions and release notes

TaskBridge streams the events of long-running tasks to an Android client and lets the client answer a
suspended task with an action. This project models the parts that must stay correct when networks, processes
and stores fail, and proves what they promise.

- **The client's stream orchestrator.** `ClientModel` is a flat machine with one step per transport session: the
  network delivers what it likes, then closes or fails. Watermark, stored checkpoint, ring of recent ids, retry
  counters and error routing are its state. `StreamTransport` is the same orchestrator in the source's form, nested
  loops over mutable fields, proved to do exactly what the machine does. `ClientDelivery`, `ClientExplicitId`,
  `ClientClassifier`, `ClientRestart` and `ClientLimits` say what the machine emits and when it ends. `Collector` is the
  channel between a listener and its consumer, under every interleaving.
- **The server's cursor loops.** `EventStream` is the append-only stream with trimming; `ServerLoops` has the
  WebSocket, SSE and polling loops over it; `Paging` compares paging over the trimmed and the whole stream;
  `EndToEnd` runs the client against these loops, and `EndToEndProgress` says what a smooth session brings.
- **The action protocol.** `ActionProtocol` runs any number of submits, reconcilers, retention passes and crashes as
  small steps, one per `await`, over durable stores. `ActionOutcomes` and `ActionAnswers` have what holds on every run; `ActionInvariant`,
  `ActionTheorems` and `ActionDispatch` have what holds when clients do not reuse action ids, and `ActionReuse` and
  `ActionClashes` what fails exactly when they do. `ActionStores` and `ActionServices` are the stores and services as
  classes.
- **Keys in the shared checkpoint store.** `StoreKeys` and `Acknowledgements`: acknowledged suspensions beside
  checkpoints, and the filter in front of the app.
- **Changelog tools.** `Text`, `Changelog`, `ChangelogTheorems`, `ReleaseNotes`: insertion and extraction, printing
  and reading.

How the code and its own words differ:

- The attempt counter is meant to be reset after a good cycle, but a cycle can only end with the flow or with an
  error, so the reset on line 156 of `TaskBridgeStreamTransport.kt` is unreachable
  (`StreamTransport.Observation.RunTransportCycleOnce`, `ClientLimits.AttemptCountsBackoffs`).
- An explicit start id is not always honoured: a backoff before the first emission reloads the stored checkpoint
  (`ClientExplicitId.ExplicitIdHonouredIff` gives the exact condition, for every classifier).
- A streaming transport that is retried after a failed send loses that event
  (`ClientClassifier.RetriedSendIsLost`). The default classifier does not retry there; another one may.
- A hand-off can be lost: a crash between the compare-and-set and the receipt strands the suspension for good
  (`ActionDispatch.DispatchableIff` says exactly when).
- An action id that is used on two suspensions of a task can overwrite a receipt, get both calls accepted although one
  should conflict, and let a reconciler mark one suspension after resuming with the other one's command
  (`ActionClashes`).
- `hasMore` is true for a poll with limit zero and an empty batch (`ServerLoops.PollEvents`).

Hypotheses, each a named predicate where it is used:

- Event ids are numeric pairs compared as pairs (`EventLog.IsNewer`), and the log is increasing.
- `ProcessingIsFinal`: a failure to hand an event over or to save its checkpoint is never retried within a cycle. Fast
  cycles, single attempts and the default classifier meet it; `ClientClassifier.DeliversIff` shows that delivery fails
  exactly without it.
- `SafeStart`: nothing is stored, the run starts where the store says, or the configuration never backs off.
  `ClientExplicitId.ExplicitIdHonouredIff` shows that delivery from the start id fails exactly without it.
- `Disciplined`: within a task an action id is used, as far as the command could be accepted, on one suspension only.
  `ActionReuse.NoReceiptLostIff` and the three theorems of `ActionClashes` show what fails exactly without it; what
  `ActionOutcomes` states needs no such hypothesis.
- Task ids without a bar where keys matter; the client's own check excludes bars, and `StoreKeys.AckKeysCollideIff` says
  when others collide. Only for keys of different clients in one store, `Plain`: namespaces and base URLs without a bar.
- `NewlineText`: changelog text has no line break other than the newline, as when read from a file in text mode.
- A log stands for the final log of a task: a session that sees less of it covers every interleaving with appends.

## Model

| member | source | states |
|---|---|---|
| `EndToEnd.ObserveThroughServer` | android/taskbridge-core/src/main/kotlin/io/github/nikkiw/taskbridge/transport/TaskBridgeStreamTransport.kt:76-302 | Server and client together, over one growing and trimmed stream: until it has ended, the client asks the WebSocket, SSE or polling loop for what follows its watermark and receives exactly the part of that loop's reply that gets through, and the replies come from one log that only grows. If no read overran the trimmed stream, the client has emitted exactly the readable events of the server's log after its start, contiguous and in order, ending at the latest with the first terminal one, and watermark and checkpoint both name the last one emitted |
| `EndToEnd.ServeSession` | backend/taskbridge-fastapi/taskbridge/handlers.py:80-202 | What each of the three server loops replies: newer events in order, one slice of the log just after the resume id unless a read overran; if it is not cut short, a full batch or everything the stream retains and, if no read overran, everything ever appended; over WebSocket a normal close exactly after a terminal event |
| `EndToEndProgress.SmoothSessionCatchesUp` | android/taskbridge-core/src/main/kotlin/io/github/nikkiw/taskbridge/transport/TaskBridgeStreamTransport.kt:306-514 | Progress, end to end: a session in which nothing goes wrong ends the run exactly if the reply holds a readable terminal event; otherwise the watermark moves to the reply's last readable event and, if the reply was no full batch, every readable event the server's log held by then after the start has been emitted |
| `EndToEndProgress.SmoothSessionTakesTheReply` | android/taskbridge-core/src/main/kotlin/io/github/nikkiw/taskbridge/transport/TaskBridgeStreamTransport.kt:285-366 | For one session on its own, whatever the client's state and also with undecodable payloads within the budget: where the client stands after the whole reply arrived, and exactly when that ends the flow |
| `EndToEnd.ServerAndClientDeliverTheLog` | android/taskbridge-core/src/main/kotlin/io/github/nikkiw/taskbridge/transport/TaskBridgeStreamTransport.kt:285-366 | If what each session received was served from the id the client resumed with, the emitted events are exactly the readable log events after the start, up to at most the first terminal one, for every failure, fallback and backoff; this is the step from sessions to whole runs in `ObserveThroughServer` |
| `EndToEnd.RunIsStrict` | android/taskbridge-core/src/main/kotlin/io/github/nikkiw/taskbridge/transport/TaskBridgeStreamTransport.kt:285-366 | A client that only ever sees frames, never the log, runs step for step like the machine against a server that sends nothing at or before the resume id |
| `EndToEnd.CutShort` | backend/taskbridge-fastapi/taskbridge/handlers.py:159-192 | Whatever prefix of a served stream gets through, it is still a served slice of the final log, however much the log grew meanwhile |
| `ClientClassifier.DeliversIff` | android/taskbridge-core/src/main/kotlin/io/github/nikkiw/taskbridge/transport/TaskBridgeStreamTransport.kt:242-302 | Exactly which configurations deliver the log, contiguous and in order, against every strict server and every script of failures: fast cycles, single attempts, or a classifier that never retries a processing error |
| `ClientClassifier.RetriedSendIsLost` | android/taskbridge-core/src/main/kotlin/io/github/nikkiw/taskbridge/transport/TaskBridgeStreamTransport.kt:285-302 | Every other configuration loses an event, wherever the run starts, on every log of two readable events after it: the failed send has already marked the id and moved the watermark, so the retry starts behind it, over WebSocket and SSE alike |
| `ClientDelivery.StrictServerDeliversTheLog` | android/taskbridge-core/src/main/kotlin/io/github/nikkiw/taskbridge/transport/TaskBridgeStreamTransport.kt:76-157 | For every script of session failures, retries, fallbacks and backoffs in both strategies, against a strict server: contiguous, in order, no repeats, at most up to the first terminal event, and watermark = checkpoint = last emitted id once something was emitted |
| `ClientDelivery.ReplaysAreAbsorbed` | android/taskbridge-core/src/main/kotlin/io/github/nikkiw/taskbridge/transport/TaskBridgeStreamTransport.kt:285-302 | With a server that also redelivers older events, the emission stays contiguous and free of repeats as long as every redelivered event is among the last 256 emitted and none precedes the start; the watermark may fall back but never passes the last emitted id |
| `ClientDelivery.ReplayBeyondWindowRepeats` | android/taskbridge-core/src/main/kotlin/io/github/nikkiw/taskbridge/transport/TaskBridgeTransportRuntime.kt:39-59 | The window bound is sharp: an event redelivered from behind the window is emitted a second time and breaks contiguity |
| `ClientDelivery.ContiguousMeans` | android/taskbridge-core/src/main/kotlin/io/github/nikkiw/taskbridge/transport/TaskBridgeStreamTransport.kt:285-302 | What contiguity says event by event: emitted ids strictly increase and no readable entry in between is missing |
| `ClientDelivery.RunKeepsSound` | android/taskbridge-core/src/main/kotlin/io/github/nikkiw/taskbridge/transport/TaskBridgeStreamTransport.kt:92-128 | The delivery invariant is kept by every step of every run, whatever the network does |
| `ClientDelivery.EmitKeepsTracked` | android/taskbridge-core/src/main/kotlin/io/github/nikkiw/taskbridge/transport/TaskBridgeStreamTransport.kt:285-302 | Handing over one event keeps the invariant for a new, a repeated, a failed and an unsaved event alike |
| `ClientExplicitId.ExplicitIdHonouredIff` | android/taskbridge-core/src/main/kotlin/io/github/nikkiw/taskbridge/transport/TaskBridgeTransportRuntime.kt:210-223 | For every configuration: the run emits a beginning of the readable log after its start id, on every log and under every network behaviour, if and only if no processing error is ever retried and there is no explicit id, the store holds nothing for the task, the two agree, or the configuration never backs off; otherwise a backoff before the first emission jumps to the stored checkpoint |
| `ClientExplicitId.BackoffForgetsTheExplicitId` | android/taskbridge-core/src/main/kotlin/io/github/nikkiw/taskbridge/transport/TaskBridgeStreamTransport.kt:76-128 | The run that shows it, for every configuration that backs off from some error: the streaming transports close, a poll fails with that error, and the next event emitted is the one after the stored checkpoint, whatever id the caller gave |
| `ClientExplicitId.DisagreementIsUnfaithful` | android/taskbridge-core/src/main/kotlin/io/github/nikkiw/taskbridge/transport/TaskBridgeTransportRuntime.kt:222-222 | For any configuration that backs off and any two disagreeing ids there is a log on which an event is skipped or one the caller has is sent again |
| `ClientRestart.RestartsLoseNothing` | android/taskbridge-core/src/main/kotlin/io/github/nikkiw/taskbridge/transport/TaskBridgeStreamTransport.kt:294-298 | Over any sequence of runs killed at any point before a terminal event and restarted from the stored checkpoint with an empty window, the sends have no gap and each restart repeats at most one event |
| `ClientClassifier.RestartsLoseNothingIff` | android/taskbridge-core/src/main/kotlin/io/github/nikkiw/taskbridge/transport/TaskBridgeStreamTransport.kt:242-302 | Restarts lose nothing, for all logs and scripts, if and only if the configuration never retries a processing error within a cycle |
| `ClientLimits.FlowEndsIff` | android/taskbridge-core/src/main/kotlin/io/github/nikkiw/taskbridge/transport/TaskBridgeStreamTransport.kt:92-183 | Under any failure classifier, over whole runs: the flow has ended if and only if one of its sessions saw a terminal event or failed with an error that ends it, that is, in polling whatever the outer loop does not back off from, in streaming a fatal error that the classifier does not retry where it is asked; it ends for that session's reason (the auth error for 401, the cause of a processing failure, otherwise the error itself) and no transport opens after it |
| `ClientLimits.SessionEndsIff` | android/taskbridge-core/src/main/kotlin/io/github/nikkiw/taskbridge/transport/TaskBridgeTransportRuntime.kt:162-169 | The same for one session, under any classifier |
| `ClientLimits.DefaultEndsFlowIff` | android/taskbridge-core/src/main/kotlin/io/github/nikkiw/taskbridge/transport/TaskBridgeTransportRuntime.kt:162-169 | With the default classifier, written out: cancellation, 401, a policy close, an auth error, an illegal argument, a serialization error and a failure to hand an event over in any transport; in polling also every other error but I/O errors, 429 and the statuses from 500 on |
| `ClientLimits.HandoverFailureSurfaces` | android/taskbridge-core/src/main/kotlin/io/github/nikkiw/taskbridge/transport/TaskBridgeTransportRuntime.kt:101-107 | Wherever in a session of any transport it happens, a failure to send a new event, or to save or clear its checkpoint, ends the flow with the collector's own error, and a cancellation there ends it as cancelled whatever the classifier |
| `ClientLimits.AttemptCountsBackoffs` | android/taskbridge-core/src/main/kotlin/io/github/nikkiw/taskbridge/transport/TaskBridgeStreamTransport.kt:156-157 | The attempt counter always equals the number of backoffs applied: the reset is never reached |
| `ClientLimits.StreamingSessionsAreBounded` | android/taskbridge-core/src/main/kotlin/io/github/nikkiw/taskbridge/transport/TaskBridgeStreamTransport.kt:185-281 | Between two backoffs a cycle opens at most wsMaxAttempts + sseMaxAttempts streaming sessions in the sticky strategy, two in the fast one |
| `ClientLimits.MalformedBudgetHolds` | android/taskbridge-core/src/main/kotlin/io/github/nikkiw/taskbridge/transport/TaskBridgeTransportRuntime.kt:112-130 | Over any run WebSocket and SSE sessions of one cycle together report at most maxMalformed + 1 malformed payloads, and the one over the budget ends the flow |
| `ClientClassifier.MalformedBudgetIff` | android/taskbridge-core/src/main/kotlin/io/github/nikkiw/taskbridge/transport/TaskBridgeTransportRuntime.kt:112-130 | The budget holds on all logs and scripts if and only if the error of an exceeded budget is never retried within a cycle |
| `ClientLimits.PollingProgressIff` | android/taskbridge-core/src/main/kotlin/io/github/nikkiw/taskbridge/transport/TaskBridgeStreamTransport.kt:442-514 | A fault-free page moves the polling cursor forward if and only if it holds a readable event; an all-malformed page leaves the watermark unchanged |
| `ClientLimits.LivePageIsReady` | android/taskbridge-core/src/main/kotlin/io/github/nikkiw/taskbridge/transport/TaskBridgeStreamTransport.kt:476-497 | In every run against a strict server each faultless page of nonterminal entries meets the hypothesis of the progress theorem |
| `ClientModel.EndedIsFinal` | android/taskbridge-core/src/main/kotlin/io/github/nikkiw/taskbridge/transport/TaskBridgeStreamTransport.kt:76-128 | No session changes anything after the flow has ended |
| `RecentIds.RecentEventIds.MarkSeen` | android/taskbridge-core/src/main/kotlin/io/github/nikkiw/taskbridge/transport/TaskBridgeTransportRuntime.kt:49-59 | For every call history the answer is true exactly when the id is not among the last `capacity` accepted ids; deque, set and that suffix stay in agreement |
| `RecentIds.PushExtendsAccepted` | android/taskbridge-core/src/main/kotlin/io/github/nikkiw/taskbridge/transport/TaskBridgeTransportRuntime.kt:49-59 | Updating the window step by step gives the last `capacity` accepted ids of the whole history |
| `StreamTransport.Observation.RunObservationLoop` | android/taskbridge-core/src/main/kotlin/io/github/nikkiw/taskbridge/transport/TaskBridgeStreamTransport.kt:76-128 | The nested loops send, store and report exactly what the flat machine does for the same script, including how the flow ends |
| `StreamTransport.Observation.RunTransportCycleOnce` | android/taskbridge-core/src/main/kotlin/io/github/nikkiw/taskbridge/transport/TaskBridgeStreamTransport.kt:130-160 | A cycle never returns false, so the attempt reset is dead code; it ends as the machine ends it, or raises the error of a backoff with the watermark it reached |
| `StreamTransport.Observation.HandleCycleError` | android/taskbridge-core/src/main/kotlin/io/github/nikkiw/taskbridge/transport/TaskBridgeStreamTransport.kt:97-122 | Each caught error ends the run the way the machine ends it or leaves it at the start of the next cycle with a reset malformed budget, also for a serialization error thrown out of a streaming transport, which restarts from the watermark of the cycle's beginning |
| `StreamTransport.Observation.ApplyTransportBackoff` | android/taskbridge-core/src/main/kotlin/io/github/nikkiw/taskbridge/transport/TaskBridgeTransportRuntime.kt:210-223 | Rethrows exactly when inactive or not retryable; otherwise one more attempt and the stored checkpoint, if any, as watermark, nothing else changed |
| `StreamTransport.Observation.RunFastCycle` | android/taskbridge-core/src/main/kotlin/io/github/nikkiw/taskbridge/transport/TaskBridgeStreamTransport.kt:185-205 | One attempt at each streaming transport, then polling, in step with the machine |
| `StreamTransport.Observation.RunProgressiveSticky` | android/taskbridge-core/src/main/kotlin/io/github/nikkiw/taskbridge/transport/TaskBridgeStreamTransport.kt:207-240 | Bounded attempts at each streaming transport, then polling, in step with the machine |
| `StreamTransport.Observation.ObserveWithTransportRetries` | android/taskbridge-core/src/main/kotlin/io/github/nikkiw/taskbridge/transport/TaskBridgeStreamTransport.kt:242-281 | Retries in step with the machine until success, a terminal event, an error that may not be retried, or the attempt limit |
| `StreamTransport.Observation.OpenOnce` | android/taskbridge-core/src/main/kotlin/io/github/nikkiw/taskbridge/transport/TaskBridgeStreamTransport.kt:306-440 | One streaming session is one step of the machine, with the same next control |
| `StreamTransport.Observation.ObservePollingPhase` | android/taskbridge-core/src/main/kotlin/io/github/nikkiw/taskbridge/transport/TaskBridgeStreamTransport.kt:442-514 | Polls in step with the machine until a terminal event, an error or cancellation |
| `StreamTransport.Observation.EmitObservedEvent` | android/taskbridge-core/src/main/kotlin/io/github/nikkiw/taskbridge/transport/TaskBridgeStreamTransport.kt:285-302 | Deduplicates, sends, saves, clears, in this order; where it fails decides what is sent and stored, as in the machine |
| `StreamTransport.Observation.OnMalformedPayload` | android/taskbridge-core/src/main/kotlin/io/github/nikkiw/taskbridge/transport/TaskBridgeTransportRuntime.kt:112-130 | Counts against the budget and raises exactly when it is exceeded |
| `StreamTransport.Observation.Collect` | android/taskbridge-core/src/main/kotlin/io/github/nikkiw/taskbridge/transport/TaskBridgeStreamTransport.kt:306-366 | Handing over the items of a session equals the machine's observation of it, state and halt |
| `EventStream.TrimmedReadIff` | backend/taskbridge-fastapi/taskbridge/event_store.py:131-151 | A read of the trimmed stream equals a read of the whole one if and only if nothing newer than the cursor is trimmed; a reader further behind gets the retained suffix from its start |
| `Paging.TrimmedPagingIff` | backend/taskbridge-fastapi/taskbridge/event_store.py:110-151 | For every history of appends and trims, successive pages of the trimmed stream give what pages of the whole stream give if and only if at no read an entry newer than the cursor is already trimmed |
| `Paging.ShortBacklogKeepsUp` | backend/taskbridge-fastapi/taskbridge/event_store.py:69-77 | It is enough that at each read at most max_stream_length events are newer than the reader's cursor |
| `Paging.PagesAreServed` | backend/taskbridge-fastapi/taskbridge/services.py:518-546 | The concatenation of successive pages of a growing log is one contiguous slice of the final log that starts just after the client's id |
| `EventStream.RedisStream.AppendEvent` | backend/taskbridge-fastapi/taskbridge/event_store.py:110-129 | The appended id is newer than every earlier one; trimming keeps the newest entries, max_stream_length of them and those the server spares |
| `EventStream.NextIdIsLeast` | backend/taskbridge-fastapi/taskbridge/event_store.py:110-129 | The id assigned is the least one that is newer than the last and not before the clock |
| `EventStream.RedisStream.ReadEventsAfter` | backend/taskbridge-fastapi/taskbridge/event_store.py:131-175 | Events newer than the cursor in strictly increasing order, with none missing unless more than max_stream_length were newer; a short batch means nothing retained is left |
| `EventLog.ReadAfterIsSlice` | examples/fastapi-host/app/demo_adapters.py:34-41 | The filtering read of the demo store is the contiguous slice just after the cursor |
| `EventLog.PosStable` | examples/fastapi-host/app/demo_adapters.py:18-23 | Appending never moves a reader that has unread entries |
| `EventLog.BatchesJoin` | backend/taskbridge-fastapi/taskbridge/handlers.py:159-192 | A read, and a later read of the grown log from where the first ended, join into one contiguous slice of the grown log |
| `ServerLoops.HandleWebSocketSubscription` | backend/taskbridge-fastapi/taskbridge/handlers.py:80-202 | For any appends between reads and any disconnect: the task frames are strictly increasing and newer than the subscriber's id, and a contiguous slice of the log unless a read overran the trimmed stream; normal close exactly after the first whole batch that holds a terminal event; 1008 exactly for a bad frame or refused access; while the socket lasts every wait is made and every batch sent whole is full or catches up. With heartbeats optional it is also the loop of routes_ws.py:107-144 |
| `ServerLoops.ServeLiveBatch` | backend/taskbridge-fastapi/taskbridge/routes_ws.py:117-144 | One round of the live loop: the whole batch goes out and the loop goes on exactly if it holds no terminal event, or the socket went away on the way; apart from events a round sends one heartbeat, if they are on and there is nothing else, or nothing |
| `ServerLoops.SendEventsAndCheckTerminal` | backend/taskbridge-fastapi/taskbridge/routes_ws.py:173-186 | A prefix of the batch goes out, the whole of it unless the socket is gone; it then reports a terminal event if and only if the batch holds one |
| `ServerLoops.SseEventGenerator` | backend/taskbridge-fastapi/taskbridge/stream_runtime.py:25-113 | For any answers of the disconnect check, also when it stops half-way through a batch and the loop goes on: the events yielded are in order and contiguous after the resume id (section 9.2 of the WHATWG HTML standard) unless a read overran; while the subscriber stays every batch is full or catches up, and comments and heartbeats come as configured, with something in every round; no wait is made once it has gone |
| `ServerLoops.YieldEvents` | backend/taskbridge-fastapi/taskbridge/stream_runtime.py:106-113 | The cursor is at the last event yielded wherever the batch is cut |
| `ServerLoops.PollEvents` | backend/taskbridge-fastapi/taskbridge/services.py:490-546 | One poll gives the slice just after the marker and the marker of its last event; `hasMore` false after a limit of at least zero means nothing retained is newer; a limit of zero always says more |
| `ServerLoops.WaitForLiveEvents` | backend/taskbridge-fastapi/taskbridge/services.py:679-703 | A wait, whatever is appended meanwhile, gives the slice just after the cursor, or in order if it overran |
| `ServerLoops.DeliverMore` | backend/taskbridge-fastapi/taskbridge/stream_runtime.py:64-113 | However much of the next batch gets through, what the subscriber has stays in order, and whole if every read was |
| `Collector.HandsOverInOrder` | android/taskbridge-core/src/main/kotlin/io/github/nikkiw/taskbridge/transport/TaskBridgeWebSocketCollector.kt:71-161 | For any interleaving of callbacks, consumer, timeouts and scope: the handler gets, in order, a prefix of the items queued before the stream end up to the first terminal event, and all of them once the consumer returned or threw the stream's error; at most one stream end is ever queued |
| `Collector.OpenedScopeEnds` | android/taskbridge-core/src/main/kotlin/io/github/nikkiw/taskbridge/transport/TaskBridgeWebSocketCollector.kt:71-161 | Once the transport was open, the scope ends cleanly only after a terminal event or because the first ending callback was a clean close, with everything before it handed over; a stream error is the one that the first ending callback reported, and surfaces only after every earlier item was processed; cancelled from outside it ends with the cancellation |
| `Collector.ReportsTheFirstEnding` | android/taskbridge-core/src/main/kotlin/io/github/nikkiw/taskbridge/transport/TaskBridgeWebSocketCollector.kt:241-286 | Over all move sequences: the messages on the channel are those the callbacks were given, in order and none missing while it is open, and the only stream end ever on it is what the first ending callback asked for: its failure, the policy error for a close with 1008 or 4400 to 4499, nothing for another close, the subscribe error |
| `Collector.UnopenedScopeFails` | android/taskbridge-core/src/main/kotlin/io/github/nikkiw/taskbridge/transport/TaskBridgeWebSocketCollector.kt:146-171 | A scope whose transport never opened ends with the cancellation or with an error of opening, the open timeout, the reported failure or the consumer's error, never cleanly; whether it opened is what a callback reported first |
| `Collector.WaitsEndWhenDue` | android/taskbridge-core/src/main/kotlin/io/github/nikkiw/taskbridge/transport/TaskBridgeWebSocketCollector.kt:146-171 | In every reachable state the wait for the transport ends by the open timeout exactly while no callback has reported anything, goes on exactly once an open was reported first, and either wait ends with an error of the consumer |
| `Collector.HandlerErrorEndsTheScope` | android/taskbridge-core/src/main/kotlin/io/github/nikkiw/taskbridge/transport/TaskBridgeWebSocketCollector.kt:89-133 | No event is handed over after one the handler threw on, and an opened scope that is not cancelled ends with that error |
| `Collector.TimesOutOnlyWhenIdle` | android/taskbridge-core/src/main/kotlin/io/github/nikkiw/taskbridge/transport/TaskBridgeWebSocketCollector.kt:78-92 | The liveness timeout fires exactly while the consumer waits on an open channel with everything on it handed over |
| `Collector.RunKeeps` | android/taskbridge-core/src/main/kotlin/io/github/nikkiw/taskbridge/transport/TaskBridgeSseCollector.kt:45-160 | The channel, consumer and scope invariants hold in every reachable state of both collectors |
| `Acknowledgements.ObserveTaskEvents` | android/taskbridge-core/src/main/kotlin/io/github/nikkiw/taskbridge/api/TaskBridgeClient.kt:371-412 | For every namespace and base URL: the app sees every event in order except suspensions acknowledged before or by then, through accepts, submits that are saved and noted in two steps, and checkpoint writes on the shared store; the flow ends with the terminal event, after which an acknowledgement of that task is left exactly if it was saved but never noted |
| `Acknowledgements.NothingLeftBehind` | android/taskbridge-core/src/main/kotlin/io/github/nikkiw/taskbridge/api/SuspensionAcknowledgementState.kt:66-71 | So when every saved submit was noted too, nothing that came up is left of the task |
| `Acknowledgements.SettledIsNotShownAgain` | android/taskbridge-core/src/main/kotlin/io/github/nikkiw/taskbridge/api/TaskBridgeClient.kt:440-446 | After an accept or dedupe of a suspension is remembered no suspended event for it passes until the terminal event |
| `Acknowledgements.AgreesAfterRemember` | android/taskbridge-core/src/main/kotlin/io/github/nikkiw/taskbridge/api/SuspensionAcknowledgementState.kt:31-40 | Remembering one suspension acknowledges that one and no other |
| `Acknowledgements.AgreesAfterOther` | android/taskbridge-core/src/main/kotlin/io/github/nikkiw/taskbridge/checkpoint/TaskBridgeCheckpointStore.kt:53-68 | Checkpoint saves and clears never add or remove an acknowledgement |
| `Acknowledgements.SuspensionAcknowledgementState.Remember` | android/taskbridge-core/src/main/kotlin/io/github/nikkiw/taskbridge/api/SuspensionAcknowledgementState.kt:31-40 | Adds exactly one store entry and notes exactly one suspension |
| `Acknowledgements.SuspensionAcknowledgementState.IsAcknowledged` | android/taskbridge-core/src/main/kotlin/io/github/nikkiw/taskbridge/api/SuspensionAcknowledgementState.kt:42-53 | True exactly when the store holds the key; a hit is noted for the later clean-up |
| `Acknowledgements.SuspensionAcknowledgementState.Clear` | android/taskbridge-core/src/main/kotlin/io/github/nikkiw/taskbridge/api/SuspensionAcknowledgementState.kt:55-64 | Removes exactly one key and forgets exactly one suspension |
| `Acknowledgements.SuspensionAcknowledgementState.ClearTask` | android/taskbridge-core/src/main/kotlin/io/github/nikkiw/taskbridge/api/SuspensionAcknowledgementState.kt:66-71 | Removes exactly the keys this instance wrote or saw for the task and nothing else |
| `StoreKeys.OwnAckKeysAreInjective` | android/taskbridge-core/src/main/kotlin/io/github/nikkiw/taskbridge/api/SuspensionAcknowledgementState.kt:73-76 | Within one client acknowledgement keys determine task and suspension for task ids without a bar, whatever the namespace, base URL and suspend id |
| `StoreKeys.OwnAckKeyIsNoCheckpointKey` | android/taskbridge-core/src/main/kotlin/io/github/nikkiw/taskbridge/checkpoint/TaskBridgeCheckpointStore.kt:70-86 | Within one client no acknowledgement key equals a checkpoint key, whatever the namespace and base URL, although the base URL is normalised twice in one and once in the other |
| `StoreKeys.AckKeysCollideIff` | android/taskbridge-core/src/main/kotlin/io/github/nikkiw/taskbridge/api/SuspensionAcknowledgementState.kt:73-76 | Exactly when two task ids can share a key: one followed by the marker begins the other followed by the marker |
| `StoreKeys.AckKeysAreInjective` | android/taskbridge-core/src/main/kotlin/io/github/nikkiw/taskbridge/api/SuspensionAcknowledgementState.kt:73-76 | Across clients that share a store, keys determine task and suspension when namespaces, base URLs and task ids have no bar |
| `StoreKeys.AckKeyIsNoCheckpointKey` | android/taskbridge-core/src/main/kotlin/io/github/nikkiw/taskbridge/checkpoint/TaskBridgeCheckpointStore.kt:82-86 | Across clients that share a store, no acknowledgement key equals a checkpoint key when namespaces and base URLs have no bar |
| `StoreKeys.CheckpointKeyWrittenOut` | android/taskbridge-core/src/main/kotlin/io/github/nikkiw/taskbridge/checkpoint/TaskBridgeCheckpointStore.kt:82-86 | The key of a task written out part by part; a missing namespace is empty |
| `StoreKeys.AckKeyWrittenOut` | android/taskbridge-core/src/main/kotlin/io/github/nikkiw/taskbridge/api/SuspensionAcknowledgementState.kt:73-76 | The key of an acknowledgement is that of its task, the marker and the suspension |
| `StoreKeys.NormalizeTrims` | android/taskbridge-core/src/main/kotlin/io/github/nikkiw/taskbridge/checkpoint/TaskBridgeCheckpointStore.kt:70-70 | White space around a base URL and slashes at its end make no difference |
| `StoreKeys.ValidTaskIdHasNoBar` | android/taskbridge-core/src/main/kotlin/io/github/nikkiw/taskbridge/internal/TaskBridgeTaskId.kt:29-39 | The client's task id check excludes bars and slashes, and a valid id has nothing to trim |
| `StoreKeys.ValidTaskIdIff` | android/taskbridge-core/src/main/kotlin/io/github/nikkiw/taskbridge/internal/TaskBridgeTaskId.kt:20-39 | Exactly which task ids the client accepts, by code points |
| `CheckpointStore.InMemoryCheckpointStore.Load` | android/taskbridge-core/src/main/kotlin/io/github/nikkiw/taskbridge/checkpoint/TaskBridgeCheckpointStore.kt:56-56 | Gives the value under the key, or nothing when there is none |
| `CheckpointStore.InMemoryCheckpointStore.Save` | android/taskbridge-core/src/main/kotlin/io/github/nikkiw/taskbridge/checkpoint/TaskBridgeCheckpointStore.kt:58-63 | Changes one key only |
| `CheckpointStore.InMemoryCheckpointStore.Clear` | android/taskbridge-core/src/main/kotlin/io/github/nikkiw/taskbridge/checkpoint/TaskBridgeCheckpointStore.kt:65-67 | Removes one key only |
| `ActionTheorems.SubmitIsLinearizable` | backend/taskbridge-fastapi/taskbridge/services.py:197-336 | Under any interleaving of calls, reconcilers, expiry, retention and crashes every answer decided by the stores is the answer a one-step accept gives in some state inside the call; TASK_CONFLICT only while the suspension is resolved by that same action id and its receipt is not saved |
| `ActionAnswers.AnswersHaveReasons` | backend/taskbridge-fastapi/taskbridge/services.py:197-351 | Why a call is answered as it is, on every run and whatever clients submit: NOT_FOUND only for refused access or a missing suspension, a disallowed action, an invalid request, a refusal by the policy and a missing resume service each only for that; DEDUPLICATED only if the saved receipt is that of the same command up to the sender, a conflict only if it is not |
| `ActionAnswers.AcceptedWasChecked` | backend/taskbridge-fastapi/taskbridge/services.py:211-258 | Whatever wins a suspension was granted access, found the suspension offering its action, and passed the host's policy if there is one; an A2UI action carries metadata and has a host with a policy and a resume service |
| `ActionAnswers.ReconcilersCountAndFail` | backend/taskbridge-fastapi/taskbridge/services.py:80-130 | On every run a reconciler's count is the number of records it marked after their resume went through, and it fails only because a resume raised or an A2UI action has no resume service, never for a record without a usable receipt |
| `ActionAnswers.RetentionStepsAreExact` | examples/fastapi-host/app/enterprise_stores.py:66-108 | The retention steps expire exactly the open suspensions strictly past their time and delete exactly the receipts strictly past their expiry, and change nothing else |
| `ActionTheorems.IdempotencyIsPermanent` | backend/taskbridge-fastapi/taskbridge/services.py:221-240 | Once a receipt is saved, every later call with that action id that passes the access check can only be deduplicated if it equals the command the receipt was saved for, up to the sender, and only be refused if it differs in the suspension, the action type, the payload or the metadata, through any number of retention passes; the receipt itself never changes |
| `ActionTheorems.HandoffIsNeverLost` | backend/taskbridge-fastapi/taskbridge/services.py:286-336 | In every reachable state a saved receipt means its suspension is resolved by that action and pending or dispatched; all resumes of one suspension carry the same command, the receipt's; a dispatched suspension was resumed |
| `ActionOutcomes.AcceptedOnce` | backend/taskbridge-fastapi/taskbridge/services.py:260-336 | Whatever clients submit, also when they reuse action ids: per suspension at most one ACCEPTED answer, one receipt and one TASK_ACTION_ACCEPTED event, all for the action that resolved it, and an answer or an event implies a receipt saved under its action id |
| `ActionOutcomes.OutcomesArePermanent` | examples/fastapi-host/app/enterprise_stores.py:26-78 | Whatever clients submit: RESOLVED, EXPIRED and CANCELLED never change again, nor does the successful action id; hand-off only moves NONE, PENDING, DISPATCHED, and is NONE exactly for unresolved suspensions |
| `ActionOutcomes.OneCommandPerSuspension` | backend/taskbridge-fastapi/taskbridge/services.py:80-336 | Whatever clients submit: all resumes of a suspension, by its winner or by reconcilers, carry the one command that resolved it, the same as in its receipt; a saved receipt names a suspension resolved by its action and pending or dispatched |
| `ActionOutcomes.StepKeepsBase` | backend/taskbridge-fastapi/taskbridge/services.py:80-336 | Every step of every call, reconciler, retention pass, opening and crash keeps the invariant these three rest on, with no assumption on the commands; whatever claims a suspension, be it a receipt, a resume or a call, names one command |
| `ActionTheorems.AnnouncedReceiptsStay` | backend/taskbridge-fastapi/taskbridge/services.py:286-310 | As long as action ids are not reused, an event's receipt still names the event's suspension and action type, and never changes |
| `ActionDispatch.DispatchableIff` | backend/taskbridge-fastapi/taskbridge/services.py:80-130 | A pending hand-off can still be dispatched if and only if its receipt is saved or the winning call is alive before saving it |
| `ActionDispatch.StrandedForever` | backend/taskbridge-fastapi/taskbridge/services.py:260-299 | A crash between compare-and-set and receipt leaves a state closed under all steps in which the suspension is never resumed, receipted or dispatched |
| `ActionDispatch.WinnerFinishes` | backend/taskbridge-fastapi/taskbridge/services.py:286-336 | A live winner left alone dispatches its suspension |
| `ActionDispatch.ReconcilerFinishes` | backend/taskbridge-fastapi/taskbridge/services.py:80-130 | A reconciler that reaches a pending suspension with its receipt dispatches it |
| `ActionReuse.NoReceiptLostIff` | backend/taskbridge-fastapi/taskbridge/services.py:221-299 | Exactly which commands clients may submit, in any interleaving with crashes, reconcilers and retention, without a resolved suspension's receipt ever naming another one: those that use each action id on one suspension of a task, as far as the host may accept them |
| `ActionReuse.ReusedActionIdLosesReceipt` | examples/fastapi-host/app/enterprise_stores.py:81-95 | For any two acceptable commands that reuse an action id on two suspensions of a task, a run from a fresh start in which both win, the second receipt overwrites the first, and the first suspension is left pending with a receipt that names the other |
| `ActionClashes.LinearizableIff` | backend/taskbridge-fastapi/taskbridge/services.py:197-336 | Exactly which commands leave `submit_action` linearizable on every run: those of which no two acceptable ones use an action id on two suspensions of a task |
| `ActionClashes.OvertakenIsNotLinearizable` | backend/taskbridge-fastapi/taskbridge/services.py:241-299 | For any two clashing commands, the run that shows it: one is answered ACCEPTED after the other has saved the shared receipt, while no state of the whole run gives that answer in one step |
| `ActionClashes.MarkedWasResumedIff` | backend/taskbridge-fastapi/taskbridge/services.py:80-130 | For exactly these commands, whatever suspension is marked as handed off, a command that names it was resumed; for any two clashing ones there is a run in which a reconciler resumes with the command of the other suspension's receipt and marks this one |
| `ActionClashes.ReceiptsArePermanentIff` | examples/fastapi-host/app/enterprise_stores.py:81-95 | For exactly these commands a saved receipt never changes, through any interleaving, retention pass and crash |
| `ActionInvariant.StepKeepsInv` | backend/taskbridge-fastapi/taskbridge/services.py:197-336 | Every step of every call, reconciler, retention pass, opening and crash keeps the invariant over stores, receipts, events, resumes and program counters |
| `ActionInvariant.RunKeepsInv` | backend/taskbridge-fastapi/taskbridge/services.py:80-336 | The invariant holds in every reachable state, and records, receipts, events and resumes only move forward |
| `ActionInvariant.InitialIsOk` | examples/fastapi-host/app/enterprise_stores.py:19-24 | The invariant holds at a start with no calls and nothing resolved, so it holds in every reachable state |
| `ActionServices.ActionService.SubmitAction` | backend/taskbridge-fastapi/taskbridge/services.py:197-336 | Undisturbed, each refusal and the accept are given exactly when they are due, and every other answer is that of a one-step accept; only an accept changes anything, and then exactly the record, the receipt, the event and the resume of this action |
| `ActionServices.ActionService.ReconcilePendingResumes` | backend/taskbridge-fastapi/taskbridge/services.py:80-130 | A pass raises exactly if handing off some reconcilable record does, because its resume raises or its A2UI action has no resume service; otherwise it hands off every pending record except the skipped ones, resumes each once and counts them; one that raises has handed off some, none of them raising; each resume is rebuilt from its own receipt |
| `ActionServices.ActionService.ReconcileOne` | backend/taskbridge-fastapi/taskbridge/services.py:84-129 | One record is passed over exactly when it has no usable receipt, raises exactly when its resume does or its A2UI action has no resume service, and is resumed and marked otherwise |
| `ActionServices.ActionService.PruneExpiredState` | backend/taskbridge-fastapi/taskbridge/services.py:145-170 | Removes exactly the stale receipts, expires exactly the overdue open suspensions, and counts both |
| `ActionServices.OnlySkippedStayPending` | backend/taskbridge-fastapi/taskbridge/services.py:84-129 | After a complete pass a record is pending if and only if it was and had no usable receipt |
| `ActionStores.InMemorySuspensionStore.AcceptActionIfOpen` | examples/fastapi-host/app/enterprise_stores.py:26-45 | Resolves an open record for this action and hands back the new record; otherwise changes nothing and says so |
| `ActionStores.InMemorySuspensionStore.MarkResumeDispatched` | examples/fastapi-host/app/enterprise_stores.py:47-57 | Marks one record and leaves all others alone |
| `ActionStores.InMemorySuspensionStore.ListPendingResumeHandoffs` | examples/fastapi-host/app/enterprise_stores.py:59-64 | Lists every pending record exactly once and nothing else |
| `ActionStores.InMemorySuspensionStore.ExpireOpenSuspensions` | examples/fastapi-host/app/enterprise_stores.py:66-78 | Expires exactly the open records past their time and counts them |
| `ActionStores.InMemoryActionReceiptStore.SaveReceipt` | examples/fastapi-host/app/enterprise_stores.py:85-89 | Stores under task and action id, without the suspension, replacing what was there |
| `ActionStores.InMemoryActionReceiptStore.DeleteExpiredReceipts` | examples/fastapi-host/app/enterprise_stores.py:97-108 | Deletes exactly the receipts past their expiry, none without one, and counts them |
| `ReleaseNotes.NotesSurviveTheChangelog` | scripts/release_tools.py:119-232 | The whole way round: notes printed, inserted into any changelog, extracted by version and read again come back as they were |
| `ReleaseNotes.ReadingUndoesPrinting` | scripts/release_tools.py:206-232 | For nonempty, stripped, single-line notes reading a printed section gives every group its own notes, in order |
| `ReleaseNotes.PrintedIsReleaseSection` | scripts/release_tools.py:119-129 | A printed section meets the conditions of the insertion theorems: its own header first and no other |
| `ReleaseNotes.RenderReleaseSection` | scripts/release_tools.py:119-129 | Empty groups leave no trace and the groups come in the fixed order |
| `ReleaseNotes.NormalizeCliffOutput` | scripts/release_tools.py:206-232 | The loop with its current section equals the line-by-line reading |
| `ReleaseNotes.NotesAreFiledUnderTheirHeading` | scripts/release_tools.py:206-232 | For any text every group holds exactly the bullets that stand under its headings, in order: features, fixes, and documentation or docs in any letter case give their group, any other heading or none gives Other |
| `ReleaseNotes.PrintedInOrder` | scripts/release_tools.py:119-129 | A printed section begins with its header, and its headings are those of the groups with notes in the order features, fixes, documentation, other |
| `ChangelogTheorems.UpdatedLines` | scripts/release_tools.py:132-152 | The updated changelog line by line: what was before the first header, a blank line, the section, and, after another blank line, the rest unchanged |
| `ChangelogTheorems.InsertedSectionIsFound` | scripts/release_tools.py:132-152 | Extracting the inserted version gives the section up to trailing whitespace, in a blank, a header-less and a populated changelog alike |
| `ChangelogTheorems.OtherVersionsAreKept` | scripts/release_tools.py:155-174 | Extracting any other version gives the same body as before the insertion, or is missing as before |
| `ChangelogTheorems.RefusedIffPresent` | scripts/release_tools.py:133-134 | The update is refused if and only if the version can already be extracted |
| `ChangelogTheorems.HeaderTellsVersion` | scripts/release_tools.py:158-158 | A header belongs to one version only, so versions without spaces never clash |
| `Changelog.UpdateChangelog` | scripts/release_tools.py:132-152 | Finds the first header, splits there, and drops empty parts, as the specification the theorems are about |
| `Changelog.ExtractReleaseBody` | scripts/release_tools.py:155-174 | Both searches find the first matching line, as the specification the theorems are about |
| `Text.SplitUnlines` | scripts/release_tools.py:139-139 | Splitting undoes ending every line with a newline |
| `Text.UnlinesOfSplit` | scripts/release_tools.py:156-156 | Joining the lines of newline-separated text gives the text back, up to the last newline |
| `Text.SplitAtBreak` | scripts/release_tools.py:156-156 | A text splits at each of Python's line breaks, with a carriage return and a newline together as one |
| `Text.StripTakesTheEnds` | scripts/release_tools.py:216-216 | Stripping takes all the white space, by code points, off both ends and nothing else |
| `Text.LinesOfPrefix` | scripts/release_tools.py:147-147 | Cutting text short cuts its lines short, so stripping creates no header |

## Left out

- Networking and frameworks: OkHttp, Retrofit, FastAPI routing, Redis, Temporal, Firebase, DataStore. Sessions, reads and store operations are nondeterministic or abstract steps instead.
- JSON decoding and validation: a payload is readable or not. Heartbeats and confirmations carry nothing.
- Delays, jitter, liveness and open timeouts as times: a timeout is a step that may happen when its condition holds.
- Cancellation of the collecting coroutine in the middle of a delay: a run ends where its script of sessions ends, which may be anywhere.
- The buffer between the sending flow and its collector: "emitted" means sent into the flow.
- A checkpoint store whose `load` throws (line 83 of `TaskBridgeStreamTransport.kt`, line 222 of `TaskBridgeTransportRuntime.kt`): the flow would end with that error; here `load` answers.
- A poll that fails after pages were delivered is one session whose end is the next request's failure; this is how the polling loop sees it.
- Ids as strings: an id is the pair the strings stand for; parsing errors of malformed ids are not modelled. An empty id string counts as no id in the Redis store; there is no empty id here.
- Whether other clients' acknowledgements are cleared: `clearTask` only removes what this instance wrote or saw, and the model claims no more.
- Scheduling guarantees: nothing here says that a reconciler is ever started, only what it does.
- The callback of the task executor: a resume is recorded with its command, not with the suspension record beside it; what the executor does with them is not modelled.
- Duplicate calls of `OpenSuspension` for a live key, and stores shared by several processes without their atomic operations.
- Characters beyond ASCII in `trim` of a base URL and in lower-casing headings; the known headings need no other case folding.
- Task creation, cancellation, status transitions, readiness probes, metrics, logging, Gradle plugins, the sample UI and the remaining release scripts: easy members, or code whose promise rests on libraries.
- `URL` building and backoff arithmetic: they rest on library code or are one-line arithmetic.
