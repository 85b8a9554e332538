# Verified models of the Athanor's adapter and client state machines

This project models, in Dafny 4.11, the event-driven state machines in the Athanor's OMP adapter and
its Godot and browser clients, and proves what each of them promises its callers.

Every machine is written twice. A datatype `State` with one function per event says what the event
does; `Step` dispatches and `Run` folds a whole history, so that a theorem over all `events` is a
theorem over every interleaving. A class with the source's own fields carries one method per source
method, written step by step with the source's branches and loops, and each method ensures that the
object afterwards is what the function makes of the object before. Asynchronous code is cut at its
awaits: what runs up to an await and what runs after it are separate events, and anything may happen
in between. Each state carries a `trace` of what somebody else can see, and the run-level theorems
speak about traces. What an event does is stated a second time in plain fields, bytes and times, without the names of the
step functions, so that these theorems read for themselves.

| part | files |
|---|---|
| shared | `Basics`, `InsertionOrder` (a JavaScript `Map`), `Decimal` |
| worker transport | `TransportTypes`, `TransportLog` (reading a trace), `TransportModel`, `TransportInvariant`, `Framing`, `TransportChunking`, `TransportRuns`, `TransportTheorems`, `TransportReports`, `TransportAdvice`, `TransportCauses`, `TransportCalls`, `TransportPressure`, `TransportClosing`, `RustJsonlTransport` (the class), `TransportStderr` |
| telemetry writer | `InsulaModel`, `InsulaTheorems`, `InsulaLedger`, `InsulaContents`, `InsulaWriter` (the class) |
| Recall Policy client | `RecallPolicy`, `RecallWire`, `RecallClient`, `RecallTheorems`, `RecallOutcomes`, `RecallShown`, `RecallRefusals`, `AthanorRecallPolicy` (the class) |
| chat doorman | `ChatAnswer`, `ChatModel`, `ChatSteps`, `ChatTheorems`, `ChatSafety`, `ChatOrder`, `ChatRounds` (two histories that go wrong), `ChatReopening` (exactly when they do), `ChatDraft`, `ChatDoorman` (the class) |
| knock doorman | `KnockModel`, `KnockTheorems`, `KnockDoorman` (the class), `KnockOverlap`, `KnockOverlapTheorems` and `KnockCompletions` (Host calls cut at their awaits) |
| turn memo cache | `TurnMemo`, `TurnMemoOrder`, `TurnComposition`, `TurnMemoCache` (the class) |
| sediment column | `Sediment`, `SedimentColumn` (the class) |
| receipt feed | `ReceiptFeed` (model and class) |
| release identity | `ReleaseIdentity`, `ReleasePaths` |

## What the environment may do

- Timers, clocks, sockets, the child process and the session are events with any timing. Write
  callbacks come later than the write. Frame times, never negative, and clock readings are numbers the
  events carry.
- `JSON.parse` with the envelope checks is a function `parse` from bytes to a reply; encoding gives a
  length or fails. Request ids are the decimal texts of the counter, so an id is a number.
- The Recall Policy Host commits states one after the other, version and sequence going up by one
  (`crates/host/src/server.rs:2242-2417`), publishes the field updates of
  `crates/protocol/src/host.rs:1742-1781`, and hashes with an arbitrary function.
- The chat Host keeps the last 256 lines and refuses a blank say id and a line that one of these repeats
  (`crates/host/src/chat.rs:118-142`, `crates/protocol/src/host.rs:1457-1465`,
  `crates/host/src/surface.rs:59`); an acknowledgement means the Host has processed the report; anything
  transmitted may be lost, late or repeated. `generatedTurnKey` is an arbitrary predicate on messages.
- A child that reports an error before its start never reports a start. What `WorkerError` carries as its
  execution is the transport's own report, which stands where the worker's details bring none
  (`adapters/omp/rust-transport.ts:723-736`, `adapters/omp/rust-transport.ts:958-1003`).
- No addition to a turn carries a retired `solarisael-` name: only reading from disk knows these names
  (`adapters/omp/index.ts:412-420`), and nothing else changes a memo but
  `adapters/omp/index.ts:1068`, `adapters/omp/index.ts:1531` and `adapters/omp/index.ts:1573`.
- The sediment Host returns up to 25 rows strictly below the cursor, in an order that agrees with it.
- Identifiers never repeat. UUID and RFC 3339 syntax and the SHA-256 digest are arbitrary functions.

## Where the code is not what it promises

Each has a lemma with a concrete input or state, and the exact condition under which the promise holds.

- `handleLine` does not ask whether a request was dispatched: an answer to a queued request ends its
  promise and its body is still written later (`AnswerKeepsAgreement`). Answered with an error, the request
  is reported as not started, which stays true if and only if it had been dispatched
  (`UnaskedAnswerIsWrittenLater`, `ErrorReportStandsIff`).
- Neither doorman nor Host tells a say from a new one that is said again after its report was processed and
  its line dropped from the 256 the Host keeps: it can be injected twice, and two different reports can go
  out under its one idempotency key (`ResaidIsInjectedTwice`). No other event leads there (`InjectedOnceIff`,
  `RetriesAgreeIff`). One say at a time, and the next only after the acknowledgement, hold all the same
  (`NextAfterAcknowledgement`). The second operator line alone comes with any say said again after its line
  was dropped (`OneOperatorLineIff`).
- A report processed again after its line was dropped brings a second spirit line (`RevivedIsAnsweredTwice`,
  `OneSpiritLineIff`, `AnswersFollowIff`).
- A proposal the Host refused should not go out again before a mode is pressed. Connecting forgets the refusal
  and keeps projection and selection (`gui/src/recall_policy.rs:1105-1109`), and `disconnect_host`
  (`gui/src/host_session.rs:131-133`) closes the session without telling the client, so that it can connect
  again while the proposal is selected; nothing in the repository calls `disconnect_host`, which is exposed
  to scripts (`RefusedIsSentAgain`, `RefusedReturnsIff`).
- An assistant message that starts with neither text nor thinking clears the draft's text without
  marking the draft dirty (`TextLingers`, `FaithfulIff`).
- A knock claimed while the session turns busy, with an adapter that cannot interrupt, is completed by
  the end of an unrelated turn without ever being delivered (`CompletedUndelivered`,
  `CompletedMeansDeliveredIff`). The end of an unrelated turn also completes a knock delivered to an idle
  session before its own turn is seen to start (`CompletedByAnotherTurn`, `OtherTurnCompletesIff`).
- When Host calls overlap, a settlement's answer is written back without asking which knock is open by
  then: it can wipe a knock claimed meanwhile (`OverlapForgetsAKnock`, `LosesIff`) or make it count as
  started (`OverlapBorrowsAStart`, `StartsTrueIff`), and then "completed" goes out for the other knock on the
  open one's turn, or for the open one without its start (`CompletionsRightfulIff`, `CompletionsDueIff`).
  Asking would be enough (`GuardedIsSafe`).
- A row without a usable stamp or id at the end of a page makes the next round ask for the top again
  (`TopIsHeldTwice`, `AlwaysTopIff`, `TopComesAgainIff`).
- A turn is asked for its entry when the composition of its context begins
  (`adapters/omp/index.ts:1070-1076`) and given one when it ends (`adapters/omp/index.ts:1531`), with awaits
  between; a composition that runs out of time is left running (`adapters/omp/index.ts:124-139`), so two
  compositions of one turn can overlap, and the second merge drops the stable context
  (`OverlapDropsContext`, `KeepsOfferedIff`); one at a time they never do (`SerialKeepsOffered`).
- An artifact path may hold a line feed, and then two different manifests can share their identity text
  (`LineFeedForgesAnArtifact`, `DecodesBackIff`).
- The comment at `gui/src/protocol.rs:257-259` says an applied delta clears `state_hash`; the code at
  `gui/src/protocol.rs:665` sets it to the delta's hash, and the model follows the code.

## Model

| member | source | states |
|---|---|---|
| `TransportTheorems.RunTellsTheTruth` | adapters/omp/rust-transport.ts:411-868 | over every history of events the whole trace is truthful: ids rise, bodies leave at most once, no promise ends twice, a report about a write is true when made and a body given up is never written, whatever order end, write and start come in, but for a body the worker answered unasked; a result is the worker's own, and poisoning is final |
| `TransportTheorems.HandedOverEndsTruly` | adapters/omp/rust-transport.ts:846-883 | a request written at any time to a child that starts at any time is reported as not started if and only if the worker answered it with an error before it was written; a definitive one ends with the result, the worker's error, or unknown with reconcile-first |
| `TransportTheorems.NeverFalselyReported` | adapters/omp/rust-transport.ts:995-1003 | for a worker that answers only ids it was sent no request reported as not started is ever, before or after, written to a started child |
| `TransportReports.ErrorReportStandsIff` | adapters/omp/rust-transport.ts:697-742 | the report that comes with a worker's error stays true whatever happens next if and only if the answered request had been dispatched; otherwise a continuation in which its body is written to a started child is constructed |
| `TransportReports.UnaskedAnswerIsWrittenLater` | adapters/omp/rust-transport.ts:697-742 | a concrete history in which a request answered with an error while queued is reported as not started and written to the started child afterwards |
| `TransportTheorems.RejectionFits` | adapters/omp/rust-transport.ts:870-883 | over every history a poisoning tells each request it rejects its own code and, once the child has started, not started exactly if its body was not written, and unknown with reconcile-first exactly if it was and the request is definitive; whether it says dispatched and what it advises is `WriteIsToldRight` and `AdviceIsRight` |
| `TransportAdvice.WriteIsToldRight` | adapters/omp/rust-transport.ts:995-1015 | over every history, whatever a promise ends with but a result says that the body was dispatched, and its write not ruled out, if and only if the trace before holds its write, the write to a child that failed to start counting as none |
| `TransportAdvice.AdviceIsRight` | adapters/omp/rust-transport.ts:870-883 | over every history an accepted request is advised rightly: reconcile first when its outcome is left unknown; after a failure change something first exactly for the ten codes a retry cannot help, and otherwise retry; after the worker's error reconcile first exactly when definitive, and otherwise retry exactly when the reply just read says retryable |
| `TransportAdvice.LaterCallsRepeatTheCause` | adapters/omp/rust-transport.ts:896-921 | over every history a call on an unusable transport is told the code of the poisoning, or, exactly when that left a definitive request unknown, an unknown outcome to reconcile first |
| `TransportAdvice.LinesAreParsedWhole` | adapters/omp/rust-transport.ts:652-680 | over every history each line heard is parsed whole: as it is when it does not end in byte 13, and without that one byte when it does |
| `TransportTheorems.RefusalIsJustified` | adapters/omp/rust-transport.ts:421-485 | a refused call ends at once and touches nothing else; told to change something, every transport would refuse it; the limits are reported only when reached, and the byte limit only for a call a new transport would take |
| `TransportLog.DefinitiveIsAuthoritative` | adapters/omp/rust-transport.ts:995-1015 | the same about a definitive request in any truthful trace, in whichever order its end, its write and the start come |
| `TransportLog.NotStartedIsTrue` | adapters/omp/rust-transport.ts:995-1003 | in any truthful trace "not started" of a body written at any time to a child that starts is said only by the worker's error that answers it before the write |
| `TransportLog.SettledOnce` | adapters/omp/rust-transport.ts:739-788 | no promise ends at two places of a truthful trace |
| `TransportLog.AcceptedInOrder` | adapters/omp/rust-transport.ts:416 | request ids are given out in increasing order, so never twice |
| `TransportLog.ResultIsTheWorkers` | adapters/omp/rust-transport.ts:723-741 | a result or structured error is what the reply read just before says about that very id; which bytes that reply was parsed from is `LinesAreParsedWhole` |
| `TransportLog.PoisonIsFinal` | adapters/omp/rust-transport.ts:846-868 | after poisoning nothing is accepted, written or read, and only calls turned away still end, none with a worker's answer |
| `TransportTheorems.PendingIsExact` | adapters/omp/rust-transport.ts:488-496 | `pending` holds exactly the accepted requests whose promise has not ended |
| `TransportTheorems.AllEndedOncePoisoned` | adapters/omp/rust-transport.ts:863-868 | once poisoned or closed every accepted request has ended |
| `TransportTheorems.PoisonedStays` | adapters/omp/rust-transport.ts:846-868 | no event accepts, queues or writes anything after poisoning |
| `TransportTheorems.QueueDiscipline` | adapters/omp/rust-transport.ts:446-485 | queued bytes are the sum of the queue and at most 4 MiB, the queue is in request order, pending and abandoned are at most 1024 each and disjoint, and a usable transport with work queued is writing or blocked |
| `TransportTheorems.QueueIsUndispatched` | adapters/omp/rust-transport.ts:606-612 | for a worker that answers only ids it was sent the queue holds exactly the undispatched pending requests |
| `TransportTheorems.WritesLeaveInOrder` | adapters/omp/rust-transport.ts:606-628 | bodies are handed over in the order the requests were accepted, each at most once |
| `TransportTheorems.FairWorkerIsNeverBlamed` | adapters/omp/rust-transport.ts:697-742 | a worker that answers each id it was sent at most once, with well-formed envelopes, never poisons the transport by its responses while at most 1024 late answers are owed |
| `TransportTheorems.AbandonedIsOwed` | adapters/omp/rust-transport.ts:776-788 | under such a worker the abandoned set is exactly the late answers still owed |
| `TransportTheorems.LateAnswerAbsorbedOnce` | adapters/omp/rust-transport.ts:699-707 | a late answer to an abandoned request ends no promise and is taken off the set; the same line again poisons |
| `TransportTheorems.OneMoreForgetsTheOldest` | adapters/omp/rust-transport.ts:783-786 | the bound is sharp: past 1024 the oldest late answer is taken for an unknown id |
| `TransportTheorems.AnswerKeepsAgreement` | adapters/omp/rust-transport.ts:697-742 | an answered pending request leaves queue and pending in agreement if and only if it had been dispatched |
| `TransportTheorems.CloseIsTheExit` | adapters/omp/rust-transport.ts:534-552 | close reports the exit only when no child can be running, and leaves nothing pending |
| `TransportTheorems.LaterCallsAreTold` | adapters/omp/rust-transport.ts:896-921 | a call on an unusable transport is told to reconcile first if and only if the poisoning left a definitive request's outcome unknown, and that its own write did not start |
| `TransportCauses.PoisonedExactlyFor` | adapters/omp/rust-transport.ts:499-604 | apart from the worker's output a usable transport is poisoned exactly by a failed spawn or write, a timeout after dispatch, an abort of a non-definitive body still being written, the child's error or exit, a broken stream, or close |
| `TransportCauses.PoisonedWith` | adapters/omp/rust-transport.ts:581-604 | and with which code each of these causes poisons |
| `TransportCauses.LineMeans` | adapters/omp/rust-transport.ts:668-742 | a line, cut of its carriage return, poisons exactly for its fault and with that fault's code; otherwise it ends the promise it answers with what it says, or, answering late, none |
| `TransportCalls.CallIsTakenIff` | adapters/omp/rust-transport.ts:421-485 | over every history a usable transport turns a call away exactly when its timeout, its signal, the requests pending, its encoding, its size or the bytes queued speak against it, for the first of these in that order; otherwise it accepts it under the next id, as definitive as it was made |
| `TransportCalls.CallEnters` | adapters/omp/rust-transport.ts:487-531 | over every history an accepted call waits under its own signal, its body handed over at once or queued last with its own length |
| `TransportCalls.WritesAreAwaited` | adapters/omp/rust-transport.ts:606-628 | over every history exactly the body whose callback is still to come counts, of the pending ones handed over, as not written out |
| `TransportPressure.NothingIntoAFullPipe` | adapters/omp/rust-transport.ts:602-628 | over every history a body is handed over only once the callback of the one before has come and, when that one filled the pipe, only after it drained; nothing else makes a usable transport hold a body back |
| `TransportClosing.CloseEndsAs` | adapters/omp/rust-transport.ts:534-559 | whatever happens before and after the first close: with no child running it ends at once; otherwise well exactly when the child exits before the deadline, badly exactly when the deadline comes first |
| `TransportCauses.EndsExactlyFor` | adapters/omp/rust-transport.ts:512-524 | while usable a pending promise ends exactly by its answer, its abort before dispatch or after its write when not definitive, or its timeout before dispatch; a dispatched definitive request by its answer alone |
| `TransportCauses.CancelWritesNothing` | adapters/omp/rust-transport.ts:763-774 | taking a queued body back ends that one promise and writes nothing: no other request is dispatched |
| `TransportInvariant.StepKeeps` | adapters/omp/rust-transport.ts:371-628 | every event keeps the invariant of pending map, queue, abandoned set, buffer and close |
| `TransportInvariant.InvalidateKeeps` | adapters/omp/rust-transport.ts:846-868 | poisoning ends every pending promise truthfully and leaves the transport empty |
| `TransportInvariant.RespondKeeps` | adapters/omp/rust-transport.ts:697-742 | a response line, whatever it says, keeps the books and blames the worker only when it is at fault |
| `TransportChunking.ChunkingIrrelevant` | adapters/omp/rust-transport.ts:641-666 | any cut of the bytes into chunks leaves the same transport as the uncut bytes; while usable it is equal down to the kept buffer |
| `TransportChunking.StdoutDelivers` | adapters/omp/rust-transport.ts:641-666 | one chunk, size checks included, does what handing on the lines of buffer and chunk one by one does |
| `TransportChunking.PumpDelivers` | adapters/omp/rust-transport.ts:652-666 | the read loop hands on exactly the lines of the buffered bytes up to the first that poisons |
| `TransportRuns.RunIsFramed` | adapters/omp/rust-transport.ts:641-666 | over every history the lines handed on are the first lines of the stream; all of them while usable, with no line over 1 MiB; a poisoning for size points at the first line not handed on, and it is too long |
| `TransportRuns.PoisonedForSizeIff` | adapters/omp/rust-transport.ts:641-666 | a chunk poisons for size if and only if some complete or trailing line is over 1 MiB and the lines before it poison nothing |
| `TransportRuns.DeliverHears` | adapters/omp/rust-transport.ts:652-666 | lines are handed on until the stream is used up, one poisons for what it says, or one is over 1 MiB |
| `Framing.SplitAnywhere` | adapters/omp/rust-transport.ts:652-656 | where a stream is cut does not change its lines nor what follows the last one |
| `Framing.LinesAreTheStream` | adapters/omp/rust-transport.ts:652-656 | the lines, each with its byte 10, and what follows them are the stream, and hold no byte 10 themselves |
| `Framing.OverlongStays` | adapters/omp/rust-transport.ts:641-651 | a line over the limit stays over it, at its place, however the stream goes on |
| `RustJsonlTransportClass.RustJsonlTransport.constructor` | adapters/omp/rust-transport.ts:398-409 | a new transport is the initial state and keeps the invariant |
| `RustJsonlTransportClass.RustJsonlTransport.Request` | adapters/omp/rust-transport.ts:411-531 | the whole new state after a request: turned away, refused by the first failing check, or accepted |
| `RustJsonlTransportClass.RustJsonlTransport.Enter` | adapters/omp/rust-transport.ts:487-531 | registers the request, starts the child, queues and flushes |
| `RustJsonlTransportClass.RustJsonlTransport.EnsureStarted` | adapters/omp/rust-transport.ts:561-577 | the child runs afterwards, and its start and exit marks are reset only for a new one |
| `RustJsonlTransportClass.RustJsonlTransport.FlushWrites` | adapters/omp/rust-transport.ts:606-628 | the new state after handing over the oldest body, for each way the write can go |
| `RustJsonlTransportClass.RustJsonlTransport.ShiftAndWrite` | adapters/omp/rust-transport.ts:608-612 | the queue shifts, its bytes go down, and the request counts as dispatched |
| `RustJsonlTransportClass.RustJsonlTransport.OnWritten` | adapters/omp/rust-transport.ts:615-620 | the new state after the write callback, with or without error |
| `RustJsonlTransportClass.RustJsonlTransport.OnDrain` | adapters/omp/rust-transport.ts:602 | unblocks and flushes |
| `RustJsonlTransportClass.RustJsonlTransport.HandleStdout` | adapters/omp/rust-transport.ts:641-666 | the new state after a chunk of output |
| `RustJsonlTransportClass.RustJsonlTransport.ReadLines` | adapters/omp/rust-transport.ts:652-666 | the loop over the buffered lines, proved against its recursive form |
| `RustJsonlTransportClass.RustJsonlTransport.HandleLine` | adapters/omp/rust-transport.ts:668-742 | the new state after one line: every way it can poison, absorb or settle; what these are, in plain terms, is `LineMeans` |
| `RustJsonlTransportClass.RustJsonlTransport.TimeoutRequest` | adapters/omp/rust-transport.ts:744-761 | the new state after a request's timer fires |
| `RustJsonlTransportClass.RustJsonlTransport.CancelQueued` | adapters/omp/rust-transport.ts:763-774 | takes a queued body back, ends its promise, and flushes |
| `RustJsonlTransportClass.RustJsonlTransport.AbandonRequest` | adapters/omp/rust-transport.ts:776-788 | ends the promise of a written request, and of no other, and remembers its late answer; what the promise is told is `WriteIsToldRight` and `AdviceIsRight` |
| `RustJsonlTransportClass.RustJsonlTransport.OnAbort` | adapters/omp/rust-transport.ts:512-524 | the new state after the caller's abort, by dispatch, definitiveness and write |
| `RustJsonlTransportClass.RustJsonlTransport.Invalidate` | adapters/omp/rust-transport.ts:846-868 | the new state after poisoning; what each promise is told is `WriteIsToldRight` and `AdviceIsRight` |
| `RustJsonlTransportClass.RustJsonlTransport.RejectAll` | adapters/omp/rust-transport.ts:863-867 | the loop that rejects every pending request with its own failure |
| `RustJsonlTransportClass.RustJsonlTransport.OnSpawn` | adapters/omp/rust-transport.ts:581 | marks the child as started |
| `RustJsonlTransportClass.RustJsonlTransport.OnChildError` | adapters/omp/rust-transport.ts:584-587 | takes the dispatch marks back when the child never started, then poisons |
| `RustJsonlTransportClass.RustJsonlTransport.OnChildClose` | adapters/omp/rust-transport.ts:588-601 | confirms a waiting close, then poisons |
| `RustJsonlTransportClass.RustJsonlTransport.OnStdinError` | adapters/omp/rust-transport.ts:583 | poisons with a write failure |
| `RustJsonlTransportClass.RustJsonlTransport.OnStdoutError` | adapters/omp/rust-transport.ts:604 | poisons with a read failure |
| `RustJsonlTransportClass.RustJsonlTransport.Close` | adapters/omp/rust-transport.ts:534-552 | the new state after close, with and without a running child |
| `RustJsonlTransportClass.RustJsonlTransport.OnShutdownDeadline` | adapters/omp/rust-transport.ts:547-549 | a close still waiting is reported as missed |
| `TransportStderr.StderrCollector.CollectStderr` | adapters/omp/rust-transport.ts:630-639 | what is kept is the first bytes of the stream up to the limit, and truncation is reported exactly when there were more, however the stream is cut |
| `InsulaLedger.NothingVanishes` | adapters/omp/house-proof/insula.ts:384-403 | conservation over every history: per endpoint, offered equals posted plus buffered plus pending drops, receipts weighing the drops they report, plus what a saturated counter could not count |
| `InsulaLedger.PostedInOrder` | adapters/omp/house-proof/insula.ts:416-453 | per endpoint, sequence numbers rise through everything posted and then everything buffered |
| `InsulaLedger.NumbersAreUsedOnce` | adapters/omp/house-proof/insula.ts:420-427 | every number from 1 to the counter belongs to exactly one endpoint, where it is posted or buffered |
| `InsulaContents.PayloadsArrive` | adapters/omp/house-proof/insula.ts:416-453 | per endpoint, over every history: the payloads of what was posted and what is buffered are exactly those offered and not shed, in order; everything with a drop count carries the writer's own operation |
| `InsulaContents.TokensAreLatest` | adapters/omp/house-proof/insula.ts:416-419 | every post goes out under the token enqueued last for its endpoint, which is that of the observation's own offer or, for a receipt of drops, of the latest offer it counts |
| `InsulaContents.ShedIff` | adapters/omp/house-proof/insula.ts:384-403 | over every history an offer is shed exactly when as much is buffered as may be, and then counted unless the counter stands at a thousand million; otherwise it is enqueued as it is under the next number |
| `InsulaContents.BatchesAreFull` | adapters/omp/house-proof/insula.ts:484-493 | over every history no post leaves back what its batch had room for |
| `InsulaContents.FullIsPrompt` | adapters/omp/house-proof/insula.ts:451-453 | over every history, once a batch is full a drain is under way or due at once |
| `InsulaLedger.StepLedger` | adapters/omp/house-proof/insula.ts:384-505 | every event keeps queue order, balance and numbering per endpoint |
| `InsulaLedger.ReceiptLedger` | adapters/omp/house-proof/insula.ts:455-475 | a drop receipt is enqueued for its own endpoint and weighs what its counter held |
| `InsulaTheorems.RunKeeps` | adapters/omp/house-proof/insula.ts:367-505 | over every history the queue count is the sum of the buckets and within the bound, batches hold at most 128, and whatever is buffered or unreported has a timer or a drain |
| `InsulaTheorems.StepKeeps` | adapters/omp/house-proof/insula.ts:367-505 | every event keeps bound, batches and liveness, drop receipts included |
| `InsulaTheorems.DrainEnds` | adapters/omp/house-proof/insula.ts:477-505 | left alone a drain ends with nothing buffered and nothing unreported |
| `InsulaTheorems.LeftAloneItEmpties` | adapters/omp/house-proof/insula.ts:367-372 | from every reachable state timers, drains and ends of posts alone lead to a writer with nothing buffered and nothing unreported |
| `InsulaTheorems.PostDoneProgress` | adapters/omp/house-proof/insula.ts:477-505 | from post to post the measure (endpoints with unreported drops, queued) goes down, or the drain ends with both at zero |
| `InsulaTheorems.PassPosts` | adapters/omp/house-proof/insula.ts:482-502 | a pass over a non-empty writer always reaches a post, so the loop cannot spin |
| `InsulaTheorems.TurnsAreTaken` | adapters/omp/house-proof/insula.ts:482-500 | over every history the next post goes to the endpoint just posted to while it has something buffered, then to the first that has among those the pass has still to come to; a drain begins with those buffered first |
| `InsulaTheorems.DrainsAreAskedFor` | adapters/omp/house-proof/insula.ts:367-372 | over every history a drain is asked for exactly by a flush, a timer that is set, an offer taken that fills a batch, or a receipt that is a batch by itself; any other offer taken sets the timer, and a drain that ends leaves none |
| `InsulaWriterClass.InsulaWriter.Emit` | adapters/omp/house-proof/insula.ts:384-403 | the new state after an observation: ignored, shed and counted, or enqueued with its own payload and token |
| `InsulaWriterClass.InsulaWriter.Shedding` | adapters/omp/house-proof/insula.ts:388-397 | the drop counter of that endpoint, saturating |
| `InsulaWriterClass.InsulaWriter.Enqueue` | adapters/omp/house-proof/insula.ts:416-453 | appends the payload given under the next number and starts a drain or the timer |
| `InsulaWriterClass.InsulaWriter.EmitNextDropReceipt` | adapters/omp/house-proof/insula.ts:455-475 | takes the oldest counter and enqueues its receipt |
| `InsulaWriterClass.InsulaWriter.Flush` | adapters/omp/house-proof/insula.ts:367-372 | clears the timer and chains one drain |
| `InsulaWriterClass.InsulaWriter.OnTimer` | adapters/omp/house-proof/insula.ts:507-515 | the timer's drain |
| `InsulaWriterClass.InsulaWriter.SendBatch` | adapters/omp/house-proof/insula.ts:484-493 | splices off at most a batch and hands it to the transport |
| `InsulaWriterClass.InsulaWriter.Pass` | adapters/omp/house-proof/insula.ts:483-500 | the loop over a snapshot of the endpoints, up to its next post |
| `InsulaWriterClass.InsulaWriter.Resume` | adapters/omp/house-proof/insula.ts:482-504 | the drain loop from one suspension to the next, proved to end |
| `InsulaWriterClass.InsulaWriter.OnDrainStart` | adapters/omp/house-proof/insula.ts:367-372 | the next chained drain begins once none runs |
| `InsulaWriterClass.InsulaWriter.OnPostEnd` | adapters/omp/house-proof/insula.ts:487-498 | what follows a post, whether it succeeded or not |
| `RecallTheorems.ReplicaIsTrue` | gui/src/recall_policy.rs:669-700 | replica refinement: under any loss, duplication and reordering of snapshots and deltas, a projection on screen has version, sequence, hash and content of one state the Host had, and every acknowledgement named one |
| `RecallTheorems.GenuineDelta` | gui/src/protocol.rs:629-667 | a genuine delta is accepted if and only if it is the very next one and leads to a readable state, and then the replica shows that state |
| `RecallTheorems.RefusedDeltaChangesNothing` | gui/src/recall_policy.rs:695-698 | a refused delta changes nothing on screen and asks for a snapshot |
| `RecallPolicy.DeltaIsSnapshot` | gui/src/protocol.rs:339-403 | from what a client sees of one state the published updates lead to what it sees of the next, and are refused exactly when that state's own snapshot would be |
| `RecallPolicy.StageReached` | crates/protocol/src/host.rs:1742-1781 | the published updates, field by field in their order, move the projection field by field |
| `RecallPolicy.SnapshotRoundTrip` | gui/src/protocol.rs:290-337 | reading back what the Host wrote is refused exactly when a required text is empty, and otherwise gives the state with empty texts read as absent |
| `RecallPolicy.SnapshotIsExact` | gui/src/protocol.rs:127-133 | the snapshot is the Host's own state if and only if that holds no empty text |
| `RecallWire.ParseIff` | gui/src/protocol.rs:290-337 | whatever comes over the wire, a dictionary is read as a state exactly when it has every field and no unknown one, the two modes are wire names, the counts and flags are of their types, no required text is empty, and every other text is read as it is or, when empty or no text, as none |
| `RecallWire.UpdateIff` | gui/src/protocol.rs:339-403 | whatever comes over the wire, an update is taken exactly when its value fits its field, and then changes that field to what it says and no other; terms without anything pending are read and forgotten |
| `RecallWire.UpdatesIff` | gui/src/protocol.rs:339-403 | the updates of a delta are taken all together exactly when each one leads on, in order, from where the one before led |
| `RecallPolicy.RequestedFromWire` | gui/src/protocol.rs:55-78 | the wire name of a requested mode determines it, and nothing else has one |
| `RecallPolicy.ResolvedFromWire` | gui/src/protocol.rs:100-121 | the wire name of a resolved mode determines it, and nothing else has one |
| `RecallTheorems.KeyDeterminesMode` | gui/src/recall_policy.rs:1234-1266 | over every history one idempotency key stands for one requested mode |
| `RecallTheorems.WaitingEndsOnlyFor` | gui/src/recall_policy.rs:629-638 | a waiting write stays the same write unless its own outcome, the 15 s timeout, link loss, a refused envelope or a reconnect occurs, and a failure keeps its key and mode; what it ends as is `WriteEndsAs` |
| `RecallOutcomes.WriteEndsAs` | gui/src/recall_policy.rs:701-732 | a waiting write becomes acknowledged if and only if a readable outcome with its own correlation accepts it, refused if and only if one refuses it, and failed, with its mode and key, if and only if one fails it, the 15 s pass, the link is lost or given up, or an envelope is refused |
| `RecallOutcomes.AnsweredKeyIsSpent` | gui/src/recall_policy.rs:1234-1266 | over every history the key of an accepted or refused write is never sent again |
| `RecallShown.ScreenAfter` | gui/src/recall_policy.rs:669-700 | what each event leaves on screen: a readable snapshot itself, a takeable delta the state it leads to, what clears nothing at all, anything else what was there |
| `RecallShown.OnScreenIff` | gui/src/recall_policy.rs:609-616 | over every history something is on screen if and only if a readable snapshot came and since then the link did not go and nothing unreadable came |
| `RecallShown.LinkAfter` | gui/src/recall_policy.rs:1092-1196 | which event leads to which phase of the link, and that no other changes it |
| `RecallShown.SelectionAfter` | gui/src/recall_policy.rs:1273-1293 | the selection is the mode pressed last, taken back by pressing it again, and lost exactly by what clears the screen or by a new snapshot |
| `RecallShown.CommandAfter` | gui/src/recall_policy.rs:1220-1293 | over every history, with no write waiting: exactly an authorised apply starts one, kept for a retry when it could not be sent; exactly a mode pressed forgets an answer; exactly a new connection forgets everything |
| `RecallShown.SentAfter` | gui/src/recall_policy.rs:641-668 | over every history exactly what each event sends: acknowledgements of what was taken, requests for a snapshot for what was not, the authorised write against the version on screen, and nothing else |
| `RecallShown.FramesStop` | gui/src/recall_policy.rs:326-350 | a frame asks for another one only while a write waits |
| `RecallTheorems.NoSecondWrite` | gui/src/recall_policy.rs:743-767 | while a write waits no other is sent |
| `RecallTheorems.WriteIsAuthored` | gui/src/recall_policy.rs:1220-1269 | a write is sent from rest, for the selected mode, against the version on screen, with a used key if and only if it retries a failed write of that mode |
| `RecallTheorems.OfferedIffTaken` | gui/src/recall_policy.rs:743-791 | over every history applying sends a write if and only if a write is offered, and otherwise does nothing at all; pressing a mode does something if and only if a selection is offered |
| `RecallRefusals.RefusedIsNotRepeated` | gui/src/recall_policy.rs:770-791 | however a history goes on from a refusal, a write of the refused mode is not sent before a mode is pressed or a connection opened while that mode is selected |
| `RecallRefusals.RefusedReturnsIff` | gui/src/recall_policy.rs:1092-1115 | the exact condition: an event that presses no mode lets the refused proposal go out again, with no other event like it, if and only if it opens a connection while the proposal is selected |
| `RecallRefusals.RefusedIsSentAgain` | gui/src/recall_policy.rs:1105-1109 | concrete histories: the Host refuses, the session is closed without a signal, the operator connects anew and applies, and the refused mode is sent again with no mode pressed |
| `RecallTheorems.RunKeepsCommand` | gui/src/recall_policy.rs:326-350 | a waiting write always has its timer running and is younger than 15 s |
| `AthanorRecallPolicyClass.AthanorRecallPolicy.ApplyDelta` | gui/src/protocol.rs:629-667 | the loop over the updates works on a copy: all of them or none |
| `AthanorRecallPolicyClass.AthanorRecallPolicy.HandleInbound` | gui/src/recall_policy.rs:669-734 | the new state after a snapshot, a delta or an outcome |
| `AthanorRecallPolicyClass.AthanorRecallPolicy.OnHostMessage` | gui/src/recall_policy.rs:1178-1195 | the new state after an envelope, refused ones dropping the projection |
| `AthanorRecallPolicyClass.AthanorRecallPolicy.OnModePressed` | gui/src/recall_policy.rs:1273-1293 | the new selection, and a stale outcome cleared |
| `AthanorRecallPolicyClass.AthanorRecallPolicy.OnApplyPressed` | gui/src/recall_policy.rs:1220-1269 | the new state after the operator applies, sent or not |
| `AthanorRecallPolicyClass.AthanorRecallPolicy.Process` | gui/src/recall_policy.rs:326-350 | the new state after a frame, timing out at 15 s |
| `AthanorRecallPolicyClass.AthanorRecallPolicy.OnConnectPressed` | gui/src/recall_policy.rs:1092-1115 | the new state after connecting |
| `AthanorRecallPolicyClass.AthanorRecallPolicy.OnDisconnectPressed` | gui/src/recall_policy.rs:1118-1131 | the new state after disconnecting |
| `AthanorRecallPolicyClass.AthanorRecallPolicy.OnHostClosed` | gui/src/recall_policy.rs:1154-1160 | fails the waiting write and drops the projection |
| `AthanorRecallPolicyClass.AthanorRecallPolicy.OnHostUnavailable` | gui/src/recall_policy.rs:1169-1175 | fails the waiting write and drops the projection |
| `AthanorRecallPolicyClass.AthanorRecallPolicy.RequestSnapshot` | gui/src/recall_policy.rs:641-656 | what is asked, subscribe or resync |
| `AthanorRecallPolicyClass.AthanorRecallPolicy.SendAcknowledge` | gui/src/recall_policy.rs:658-667 | acknowledges the cursor on screen |
| `AthanorRecallPolicyClass.AthanorRecallPolicy.DropProjection` | gui/src/recall_policy.rs:609-615 | clears binding, cursor, projection, event and selection |
| `AthanorRecallPolicyClass.AthanorRecallPolicy.FailPending` | gui/src/recall_policy.rs:629-638 | a waiting write fails with its key and mode |
| `ChatSafety.InjectedOnce` | adapters/omp/house-proof/chat.ts:122-160 | over every history in which no say is said again after its report was processed and its line dropped: no say is injected twice, and says are injected in the order they were said |
| `ChatReopening.InjectedOnceIff` | adapters/omp/house-proof/chat.ts:122-160 | the exact condition: as long as that has not happened, an event is followed by second injections in no history that goes on without it, if and only if the event is not of that kind or the doorman is stopped; otherwise a continuation that injects the say twice is constructed |
| `ChatSafety.NextAfterAcknowledgement` | adapters/omp/house-proof/chat.ts:244-264 | over every history: the next say is injected only after the report of the one before was acknowledged |
| `ChatSafety.RetriesRepeatTheReport` | adapters/omp/house-proof/chat.ts:223-239 | over every history in which no say is said again after its report was processed and its line dropped: every transmission for a say carries the same payload and idempotency key, and no two says share a key |
| `ChatReopening.RetriesAgreeIff` | adapters/omp/house-proof/chat.ts:223-239 | the exact condition, in the same form: that event alone lets two different reports go out under one idempotency key, and then some continuation does |
| `ChatOrder.RetriesAreAlike` | adapters/omp/house-proof/chat.ts:244-264 | over every history, such says included: transmissions with no acknowledgement between them are the same report |
| `ChatSafety.OneOperatorLineIff` | crates/host/src/chat.rs:118-142 | a say gets at most one operator line if and only if it is not said again after its line was dropped from the 256 the Host keeps |
| `ChatSafety.OneSpiritLineIff` | crates/host/src/chat.rs:118-142 | over every history: a say gets at most one spirit line if and only if the Host is given no report again after its line was dropped from the 256 it keeps |
| `ChatOrder.FirstAnswersInOrder` | adapters/omp/house-proof/chat.ts:142-149 | over every history: the first spirit lines of two says stand in the order in which the says were first injected, and only the say injected last can be unanswered |
| `ChatOrder.AnswersFollowIff` | adapters/omp/house-proof/chat.ts:142-149 | over every history: all spirit lines stand in the order in which the says they answer were first injected, if and only if no report is given again after its line was dropped |
| `ChatOrder.AnswersInOrder` | adapters/omp/house-proof/chat.ts:142-149 | with every injection counted, not only the first: when no say is said again after its report was processed and its line dropped, and no report is given again after its line was dropped |
| `ChatSafety.NoneIsBlank` | crates/protocol/src/host.rs:1457-1465 | whatever is said, the Host holds no operator line with a blank say id |
| `ChatSafety.InjectedAgainIffEmpty` | adapters/omp/house-proof/chat.ts:129-150 | what that refusal is for: after an injection an idle poll of unchanged lines injects again if and only if the turn id is empty |
| `ChatRounds.ResaidIsInjectedTwice` | crates/host/src/chat.rs:118-142 | concrete histories: the first of 129 or more answered says is said again after its line was dropped, and is injected twice |
| `ChatRounds.RevivedIsAnsweredTwice` | crates/host/src/chat.rs:118-142 | concrete histories: its report is processed again after its line was dropped, and it has two spirit lines |
| `ChatTheorems.StepBase` | adapters/omp/house-proof/chat.ts:122-264 | every event of doorman and Host, says said again included, keeps one say open at a time, every spirit line the answer to an injected say whose report was processed, and nothing processed that was not transmitted |
| `ChatTheorems.StepKeeps` | adapters/omp/house-proof/chat.ts:122-264 | every event but a say said again after its report was processed and its line dropped keeps injections new and in log order, and one report for each say |
| `ChatTheorems.ChosenIsNew` | adapters/omp/house-proof/chat.ts:141-149 | the line chosen from a snapshot of the last 256 lines, however late, is a new say further down |
| `ChatAnswer.CaptureIsStable` | adapters/omp/house-proof/chat.ts:202-222 | messages appended later, unless they repeat the say's origin, change neither answer nor thinking nor outcome |
| `ChatAnswer.CaptureIsOwned` | adapters/omp/house-proof/chat.ts:202-222 | the answer is the first settled assistant after the say's last origin, with no other turn's origin in between: its text, all thinking up to it, an error or an abort exactly when its stop reason says so |
| `ChatAnswer.CapturedIff` | adapters/omp/house-proof/chat.ts:202-217 | something is captured if and only if there are such an origin and such an assistant |
| `ChatAnswer.ThoughtsConcat` | adapters/omp/house-proof/chat.ts:219-219 | the thinking captured is that of the assistant messages, in their order |
| `ChatSteps.AsksIff` | adapters/omp/house-proof/chat.ts:122-138 | a snapshot is asked for exactly by a poll that finds the session on top and idle and nothing open, and only its answer or its loss ends the question |
| `ChatSteps.InjectsIff` | adapters/omp/house-proof/chat.ts:139-159 | an injection happens exactly when a snapshot is heeded that holds, among its 256 lines, an operator line with no spirit line: the first such is injected, with no tool steps yet |
| `ChatSteps.CapturesIff` | adapters/omp/house-proof/chat.ts:223-239 | the report is captured exactly at the end of a turn on top at which the open say's answer can be, under that say's key, and stays as it is until it is acknowledged |
| `ChatSteps.TransmitsIff` | adapters/omp/house-proof/chat.ts:244-254 | a report goes out exactly when none is on its way: at its capture, or at a poll on top |
| `ChatSteps.ClosesIff` | adapters/omp/house-proof/chat.ts:256-263 | a say is closed exactly by the acknowledgement of its report, and only when the Host has processed it; a failure ends the transmission and nothing else |
| `ChatSteps.ReportsCarryTheSteps` | adapters/omp/house-proof/chat.ts:223-239 | over every history a captured report carries exactly the tool steps noted since its say was injected, in order |
| `ChatSteps.HostTakesIff` | crates/host/src/chat.rs:118-142 | the Host takes an operator line exactly when its id is not blank and none of the 256 lines held says it, and a spirit line exactly when none of them answers its say |
| `ChatAnswer.RepeatedOriginForgets` | adapters/omp/house-proof/chat.ts:202-217 | a repeated origin takes the captured answer away |
| `ChatDraft.StepFaithful` | adapters/omp/house-proof/chat.ts:339-368 | a clean draft was reported as it is; only a message starting without text and thinking breaks that, exactly when it drops text already reported |
| `ChatDraft.StepLively` | adapters/omp/house-proof/chat.ts:281-328 | unreported draft content has a timer or a report in flight, and one report is in flight at a time |
| `ChatDraft.FaithfulIff` | adapters/omp/house-proof/chat.ts:339-368 | over every history of a draft what is not dirty was always reported as it was, if and only if no message started with neither text nor thinking over reported text |
| `ChatDraft.TextLingers` | adapters/omp/house-proof/chat.ts:339-368 | a concrete history from the blank draft: reported text stays on the Host after the draft has lost it, with nothing on its way |
| `ChatDraft.RunLively` | adapters/omp/house-proof/chat.ts:281-328 | over every history unreported content has a timer or a report in flight, and no tool call is shown twice |
| `ChatDraft.CatchesUp` | adapters/omp/house-proof/chat.ts:281-328 | a dirty draft left alone is reported as it is |
| `ChatDraft.DraftIsWhatHappened` | adapters/omp/house-proof/chat.ts:339-368 | over every history the draft shows the latest message's text, all thinking so far in order, and the tool calls in the order they started, each once |
| `ChatDraft.ScheduledIff` | adapters/omp/house-proof/chat.ts:281-328 | a report is scheduled exactly by text, thinking or a tool the draft did not show, or by what came during the report that ends; and is due until the timer fires |
| `ChatDraft.ReportsIff` | adapters/omp/house-proof/chat.ts:288-328 | a report goes out exactly when the timer fires with none on its way, and carries the draft as it is then |
| `ChatDoormanClass.ChatDoorman.TickChatDoorman` | adapters/omp/house-proof/chat.ts:122-138 | the poll up to its await: retry of the report, or a snapshot request, or nothing |
| `ChatDoormanClass.ChatDoorman.OnSnapshot` | adapters/omp/house-proof/chat.ts:139-159 | the poll after its await: the first unanswered operator line among those held is injected |
| `ChatDoormanClass.ChatDoorman.NoteChatTurnEnd` | adapters/omp/house-proof/chat.ts:191-242 | captures the answer once, with the steps so far, and reports it |
| `ChatDoormanClass.ChatDoorman.Thinking` | adapters/omp/house-proof/chat.ts:219 | collects the visible thinking of the owned messages |
| `ChatDoormanClass.ChatDoorman.DeliverChatReport` | adapters/omp/house-proof/chat.ts:244-254 | transmits the captured report when none is in flight |
| `ChatDoormanClass.ChatDoorman.OnReportAcked` | adapters/omp/house-proof/chat.ts:256-258 | an acknowledged report frees the doorman |
| `ChatDoormanClass.ChatDoorman.OnReportFailed` | adapters/omp/house-proof/chat.ts:259-263 | a failed report is kept for a retry |
| `KnockTheorems.ClaimsDoNotOverlap` | adapters/omp/house-proof/knock.ts:297-378 | a claimed knock is completed with acknowledgement or attempted as failed before the next claim |
| `KnockTheorems.RestMeansSettled` | adapters/omp/house-proof/knock.ts:161-172 | at rest every knock ever claimed was so settled |
| `KnockTheorems.CompletionIsEarned` | adapters/omp/house-proof/knock.ts:278-295 | completed is sent only after an acknowledged start and both turn marks, all since the claim |
| `KnockTheorems.InterruptedTurnIsConsumed` | adapters/omp/house-proof/knock.ts:461-474 | after an interrupt the first turn end before the knock's own start completes nothing; the next one may |
| `KnockTheorems.StepKeeps` | adapters/omp/house-proof/knock.ts:209-474 | every event keeps flags and trace in law |
| `KnockTheorems.TickLetsGoIff` | adapters/omp/house-proof/knock.ts:297-334 | a poll lets go of a delivered knock exactly when 25 s have passed since its delivery with no start acknowledged, 60 s since its delivery with no start seen, or 25 s since the end of its turn, on its acknowledged earned completion, or when the interruption it needs cannot be had |
| `KnockTheorems.ClaimsWait` | adapters/omp/house-proof/knock.ts:335-367 | a failed claim counts, and the next poll that may claim comes after the wait that belongs to the count; any answer of the Host ends it; a poll before its time does nothing |
| `KnockTheorems.GrantOpens` | adapters/omp/house-proof/knock.ts:335-358 | a granted claim opens that knock with no mark left of any other, and hands it over at once exactly when the session is idle by then or can be interrupted |
| `KnockTheorems.WaitIsBackoff` | adapters/omp/house-proof/knock.ts:361-367 | the wait after a failed claim doubles with every failure up to 60 s, which it has reached at the fifth |
| `KnockTheorems.InterruptsIff` | adapters/omp/house-proof/knock.ts:221-246 | a poll interrupts the session's turn exactly for a knock handed to a busy session, its start known, that is not overdue, completed or interrupted already |
| `KnockTheorems.DeliveryIsNoted` | adapters/omp/house-proof/knock.ts:248-276 | an open knock not yet delivered is handed over by a poll that finds the session idle or can interrupt it, and noted with the time and whether the session was busy |
| `KnockTheorems.EndIsNoted` | adapters/omp/house-proof/knock.ts:461-474 | the end of a turn other than the interrupted one is noted with its time, as the end of the knock's turn |
| `KnockTheorems.RetiredIsFailed` | adapters/omp/house-proof/knock.ts:209-219 | a knock open when its doorman retires is failed once and let go |
| `KnockTheorems.UndeliveredAfterClaim` | adapters/omp/house-proof/knock.ts:248-252 | a claim leaves the knock undelivered exactly when the session got busy and its adapter cannot interrupt |
| `KnockTheorems.InterruptersDeliver` | adapters/omp/house-proof/knock.ts:248-276 | an adapter that can interrupt never holds an undelivered knock between events |
| `KnockTheorems.CompletedMeansDeliveredIff` | adapters/omp/house-proof/knock.ts:461-474 | over every run each knock completed with acknowledgement was delivered since its claim, if and only if no turn end found the open knock undelivered with start and completion acknowledged |
| `KnockTheorems.InterruptersCompleteTruly` | adapters/omp/house-proof/knock.ts:248-295 | over every run with an adapter that can interrupt, every acknowledged completion is of a knock delivered since its claim |
| `KnockTheorems.OtherTurnCompletesIff` | adapters/omp/house-proof/knock.ts:461-474 | the end of a turn the knock was not seen to start completes it, delivered or not, exactly when it is not the interrupted turn and both settlements are acknowledged |
| `KnockTheorems.CompletedUndelivered` | adapters/omp/house-proof/knock.ts:461-474 | a concrete history in which a knock is completed whose message was never sent |
| `KnockTheorems.CompletedByAnotherTurn` | adapters/omp/house-proof/knock.ts:461-474 | a concrete history in which a knock delivered to an idle session is completed by the end of a turn it did not start |
| `KnockOverlapTheorems.LosesIff` | adapters/omp/house-proof/knock.ts:209-219 | Host calls cut at their awaits, over every course: a knock is lost (claimed, not settled, held by nobody) if and only if at some moment a settlement's answer comes back to a doorman that holds another knock, with no failure of that knock on its way |
| `KnockOverlapTheorems.StartsTrueIff` | adapters/omp/house-proof/knock.ts:278-295 | over every course the doorman takes the open knock's start for acknowledged only when it was, if and only if no acknowledgement of another knock's start comes back to it |
| `KnockCompletions.CompletionsRightfulIff` | adapters/omp/house-proof/knock.ts:278-295 | over every course each completion asked of the Host is that of the open knock, its own turn marked as begun and ended since its claim, if and only if no acknowledgement of another knock's start comes back while the open knock's turn is over |
| `KnockCompletions.CompletionsDueIff` | adapters/omp/house-proof/knock.ts:278-295 | and with its start acknowledged: as long as no start was borrowed, an event is followed by no unearned completion in any course that goes on without borrowing one, if and only if it borrows none; otherwise a continuation that asks for one is constructed |
| `KnockOverlapTheorems.GuardedIsSafe` | adapters/omp/house-proof/knock.ts:209-219 | were the open knock compared with the call's own before each write-back, no course would lose a knock or borrow a start |
| `KnockOverlapTheorems.NextExact` | adapters/omp/house-proof/knock.ts:161-377 | the same event by event: exactly which events lose a knock, and which take a start for acknowledged that was not |
| `KnockOverlapTheorems.ClaimsIff` | adapters/omp/house-proof/knock.ts:335-353 | with calls cut at their awaits, a claim goes out exactly by a poll that finds no knock open, its time come, the session idle or able to be interrupted, and no claim under way, neither unanswered nor with its knock still being handed over |
| `KnockOverlapTheorems.AtOnceIsAtomic` | adapters/omp/house-proof/knock.ts:209-377 | with every Host call answered at once the doorman with overlapping calls is the doorman of atomic calls, event by event |
| `KnockOverlapTheorems.OverlapForgetsAKnock` | adapters/omp/house-proof/knock.ts:209-219 | a concrete course from the start: two failures of one knock overlap, and the second answer wipes the knock claimed after the first |
| `KnockOverlapTheorems.OverlapBorrowsAStart` | adapters/omp/house-proof/knock.ts:278-295 | a concrete course from the start: the late acknowledgement of one knock's start makes the next knock count as started |
| `KnockDoormanClass.KnockDoorman.TickDoorman` | adapters/omp/house-proof/knock.ts:297-334 | the new state after a poll: claim, deliver, give up at a deadline, or settle and interrupt |
| `KnockDoormanClass.KnockDoorman.ClaimKnock` | adapters/omp/house-proof/knock.ts:335-377 | the new state after a claim, with its backoff |
| `KnockDoormanClass.KnockDoorman.DeliverActiveKnock` | adapters/omp/house-proof/knock.ts:248-276 | the new state after delivering the open knock |
| `KnockDoormanClass.KnockDoorman.SettleObservedTurn` | adapters/omp/house-proof/knock.ts:278-295 | settles the start, then the completion once earned |
| `KnockDoormanClass.KnockDoorman.InterruptActiveTurn` | adapters/omp/house-proof/knock.ts:221-246 | interrupts the running turn once, or fails the knock |
| `KnockDoormanClass.KnockDoorman.FailActiveKnock` | adapters/omp/house-proof/knock.ts:209-219 | one settlement attempt, then the doorman is free |
| `KnockDoormanClass.KnockDoorman.ClearActiveKnock` | adapters/omp/house-proof/knock.ts:161-172 | every flag back to rest |
| `KnockDoormanClass.KnockDoorman.NoteTurnStart` | adapters/omp/house-proof/knock.ts:442-459 | marks the start of the delivered knock's turn |
| `KnockDoormanClass.KnockDoorman.NoteTurnEnd` | adapters/omp/house-proof/knock.ts:461-474 | consumes the interrupted turn or marks the end |
| `TurnMemo.CacheIsTransparent` | adapters/omp/index.ts:448-464 | over every history the cache reads like one unbounded memo per session and holds at most 128 |
| `TurnMemo.AccessRefines` | adapters/omp/index.ts:1064-1069 | one access changes what its session reads as the change says, leaves every other session alone, and keeps the session cached |
| `TurnMemo.TouchKeeps` | adapters/omp/index.ts:448-464 | the session touched is cached; every other one stays, but for the first of a full cache when the session was not cached |
| `TurnMemo.ReadBackIsExact` | adapters/omp/index.ts:409-422 | reading a persisted memo back is exact if and only if it holds no retired name |
| `TurnMemo.EvictionRespells` | adapters/omp/index.ts:409-464 | pushing a memo out and reading it back changes it exactly when it holds a retired name |
| `TurnMemo.MergeKeepsStableOnce` | adapters/omp/index.ts:497-509 | a merge leaves other turns alone and keeps each stable context type in at most one place |
| `TurnMemo.MergeKeepsOffered` | adapters/omp/index.ts:497-509 | a stable type offered is in the memo afterwards unless its only place was the entry replaced |
| `TurnMemo.WithoutIsExact` | adapters/omp/index.ts:491-495 | a removal leaves exactly the additions of other kinds, payloads and order included |
| `TurnMemo.KeptIsExact` | adapters/omp/index.ts:497-509 | a merge keeps exactly the additions that are not of the four stable types or are new to the memo, payloads and order included |
| `TurnMemo.ChangeIsExact` | adapters/omp/index.ts:478-509 | what pruning, merging and removing leave of every turn: the entries of exactly the visible turns; the worthwhile additions for this turn and all other turns as they were; every turn without that kind |
| `TurnMemo.ReadBackRenames` | adapters/omp/index.ts:409-422 | reading back replaces the prefix of exactly the names that begin with the retired one, and nothing else |
| `TurnMemoOrder.HoldsTheLatest` | adapters/omp/index.ts:448-464 | over every history the cache holds exactly the 128 sessions used last, in the order of their latest use |
| `TurnComposition.SerialKeepsOffered` | adapters/omp/index.ts:1067-1076 | over every history in which no composition of a turn begins while another one of it is under way, each merge keeps every stable type offered |
| `TurnComposition.KeepsOfferedIff` | adapters/omp/index.ts:1530-1533 | a merge drops a stable type offered if and only if the turn has an entry by then and the type stands nowhere else |
| `TurnComposition.ComposesIff` | adapters/omp/index.ts:1064-1076 | a context is composed exactly for a turn that has no entry among the visible ones, after the others are forgotten |
| `TurnComposition.OverlapDropsContext` | adapters/omp/index.ts:124-139 | a concrete history: two overlapping compositions of one turn, the first merge brings the room's context and the second takes it away |
| `TurnMemoCacheClass.TurnMemoCache.TurnAdditionMemo` | adapters/omp/index.ts:448-464 | the memo given out and the new order, with eviction |
| `TurnMemoCacheClass.TurnMemoCache.Change` | adapters/omp/index.ts:1064-1069 | get, change and persist |
| `TurnMemoCacheClass.PruneTurnAdditionMemo` | adapters/omp/index.ts:478-482 | only visible turns stay |
| `TurnMemoCacheClass.MergeTurnAdditions` | adapters/omp/index.ts:497-509 | the turn's entry becomes the additions worth keeping |
| `TurnMemoCacheClass.RemoveMemoCustomType` | adapters/omp/index.ts:491-495 | every entry loses the type |
| `Sediment.AlwaysTopIff` | gui-prototype/sediment/index.js:159-183 | over every history in which rows are written only at the top, rows held are always the top of the record as it was when the walk began, none skipped and none twice, if and only if no page asked for without a cursor was appended to rows held |
| `Sediment.WalkIsComplete` | gui-prototype/sediment/index.js:159-183 | on a record whose rows have a stamp and an id from 1 to 2^53 - 1, strictly descending by stamp and id and written only at the top: over every history the rows held are the top of the record as it was when the walk began, none twice, and all of it once exhausted |
| `Sediment.WalkReachesTheEnd` | gui-prototype/sediment/index.js:159-183 | and the walk gets there: after n rounds the first 25 n rows are held or all of them, and it is exhausted exactly when 25 n exceeds their number |
| `Sediment.CursorIsLastRow` | gui-prototype/sediment/index.js:162-169 | over every history an appending question asks below the stamp and id of the last row held exactly when that row has a stamp and a fit id; any other carries no cursor |
| `Sediment.OneQuestion` | gui-prototype/sediment/index.js:162-164 | while a question is open nothing is asked, and without one no answer is taken |
| `Sediment.StepKeeps` | gui-prototype/sediment/index.js:162-183 | every question, answer and newer row keeps the walk, but for a page appended without a cursor |
| `Sediment.BelowIsSuffix` | gui-prototype/sediment/index.js:166-167 | what lies strictly below a row that can be a cursor is exactly what follows it |
| `Sediment.RefusalLosesNothing` | gui-prototype/sediment/index.js:170-178 | a refused or malformed answer keeps rows, cursor and exhaustion, and shows as a refusal until the next page |
| `Sediment.TopComesAgainIff` | gui-prototype/sediment/index.js:251-259 | over every history the page appended is the first 25 rows strictly below the last row held, or, if and only if that row has no stamp or an id below 1 or above 2^53 - 1, the top of the table again |
| `Sediment.TopIsHeldTwice` | gui-prototype/sediment/index.js:251-259 | a concrete history: a record of one row without a stamp is held twice |
| `SedimentColumnClass.SedimentColumn.AskColumn` | gui-prototype/sediment/index.js:162-169 | one question at a time, with the cursor of the last row held exactly when appending |
| `SedimentColumnClass.SedimentColumn.OnAnswer` | gui-prototype/sediment/index.js:170-182 | the new rows, exhaustion and cursor after an answer, the cursor the stamp and id of the last row held exactly when it has both and the id is fit |
| `ReceiptFeed.FeedIsCoherent` | gui/src/paper_boat_receipt.rs:24-76 | over every run delivered means a receipt is held, which is the last applied in identity and order, and without one there is a diagnostic |
| `ReceiptFeed.OrderNeverRegresses` | gui/src/paper_boat_receipt.rs:39-59 | the last sequence never decreases from any moment to any later one |
| `ReceiptFeed.ShownAfter` | gui/src/paper_boat_receipt.rs:39-72 | a parsed snapshot that is not out of order is shown afterwards: status, receipt, diagnostic and identity, and its order unless it repeats what is shown; anything else refused shows the reason and no receipt; degrading never discards a receipt |
| `ReceiptFeed.ParsedIff` | gui/src/protocol.rs:729-830 | an envelope is parsed exactly when its status is known, what it says is coherent, and its receipt, if any, fits |
| `ReceiptFeed.FitsIff` | gui/src/protocol.rs:767-800 | a receipt fits exactly with a canonical positive record id, the syntax of its fields, and a hash of 64 lower-case hexadecimal digits |
| `ReceiptFeed.StepKeeps` | gui/src/paper_boat_receipt.rs:39-72 | every event keeps that, and degrading never discards a receipt |
| `ReceiptFeed.CardIsHonest` | gui/src/paper_boat_receipt.rs:80-111 | over every run the card shows evidence, that of the receipt held, exactly when delivered, says which other status it is and why, and never reaches its last arm |
| `ReceiptFeed.ParsedIsCoherent` | gui/src/protocol.rs:793-830 | a parsed snapshot is delivered exactly with a receipt, which carries the identity, room and order of its envelope |
| `ReceiptFeed.RecordIdIsCanonical` | gui/src/protocol.rs:773-779 | exactly the canonical decimals of positive 64-bit numbers pass as record ids |
| `ReceiptFeed.PaperBoatFeed.ApplySnapshot` | gui/src/paper_boat_receipt.rs:39-59 | regressive, repeated or changed, and the new feed, coherent if feed and snapshot were, its order never going back |
| `ReceiptFeed.PaperBoatFeed.RefuseFeed` | gui/src/paper_boat_receipt.rs:61-65 | refused, without receipt, and still coherent |
| `ReceiptFeed.PaperBoatFeed.DegradeFeed` | gui/src/paper_boat_receipt.rs:67-72 | degraded only without receipt, and still coherent |
| `ReleaseIdentity.TextIsInjective` | adapters/omp/installed-loader.ts:391-404 | equal texts of accepted manifests whose paths hold no line feed mean equal version, compatibility numbers and artifact list |
| `ReleaseIdentity.TextRoundTrip` | adapters/omp/installed-loader.ts:391-404 | the decoder inverts the printer on them |
| `ReleaseIdentity.DecodesBackIff` | adapters/omp/installed-loader.ts:391-404 | the text of an accepted manifest decodes to it if and only if no path holds a line feed |
| `ReleaseIdentity.LineFeedForgesAnArtifact` | adapters/omp/installed-loader.ts:291-302 | two accepted manifests, of one and of two artifacts, that share their text |
| `ReleaseIdentity.ReleaseIdIsIdentity` | adapters/omp/installed-loader.ts:404-405 | under a digest that tells the texts apart one release id means one release |
| `ReleaseIdentity.ReleaseIdIsSafe` | adapters/omp/installed-loader.ts:227-237 | a computed release id passes the check on release ids |
| `ReleasePaths.SafePathIff` | adapters/omp/installed-loader.ts:291-302 | a path is accepted exactly when it holds no backslash and no colon and none of its parts between slashes is empty, one dot or two dots |
| `ReleasePaths.AfterIff` | adapters/omp/installed-loader.ts:350-353 | a path comes after another exactly when it goes on where the other ends or has the greater character where they first differ |
| `ReleasePaths.SameUpToCaseIff` | adapters/omp/installed-loader.ts:331-338 | two paths count as one exactly when they differ at most in the case of letters A to Z |
| `ReleasePaths.VersionIff` | adapters/omp/installed-loader.ts:216-225 | a version is safe exactly with 1 to 128 letters, digits, dots, plus signs and hyphens, the first a letter or digit, and no two dots in a row anywhere |
| `ReleasePaths.ReleaseIdIff` | adapters/omp/installed-loader.ts:227-237 | a release id is safe exactly when it is a safe version, a hyphen and 64 lower-case hexadecimal digits |
| `ReleasePaths.EntryFitsIff` | adapters/omp/installed-loader.ts:331-348 | an artifact entry is fit exactly with a safe path, 64 lower-case hexadecimal digits and a size from 0 to 2^53 - 1 |
| `ReleasePaths.ManifestFitsIff` | adapters/omp/installed-loader.ts:304-362 | a manifest is fit exactly with format 1 and its component, a version, a release id, four numbers below 2^32 and at least one artifact, each fit, no two paths alike up to case, and in order |
| `ReleaseIdentity.ParseArtifacts` | adapters/omp/installed-loader.ts:331-353 | the loops accept exactly fit entries whose paths differ up to ASCII case and are in order |
| `ReleaseIdentity.ParseComponentManifest` | adapters/omp/installed-loader.ts:304-362 | exactly fit manifests are accepted, and their identity is what comes out |
| `Decimal.ValueOfPrint` | adapters/omp/installed-loader.ts:396-401 | a printed number reads back as itself |

## Left out

- Diagnostics of the transport: evidence, targets, messages, redaction and next checks; only the error
  kind, `request_dispatched`, `write_outcome` and `retry` are kept, and for a worker's error only what the
  transport itself would say, not what the worker's own details put in its place.
- Spawning, killing and environment of the child process, and the grace timer before it is killed.
- The second size check of `handleStdout` is dead code: a chunk without newline was already refused, and
  one with a newline leaves a newline in the buffer; the class asserts so.
- Output bytes are not decoded: a line is a byte sequence and `parse` decides what it says.
- Contents of telemetry observations (spans, durations, tokens, redaction of names) beyond payload and
  drop count, and the pairing of span starts with span ends.
- Closing the telemetry writer: it is terminal, and a drain may outlive the cleared counters.
- Numbers on the wire beyond what a 64-bit float holds exactly, and 64-bit overflow of a sequence.
- `ParseInbound` stands for the shape checks on envelope metadata by one refused shape, `BadShape`.
- Display texts of the Recall Policy client, reasons shown with a refusal, and URL validation.
- Version numbers reused by a Host that restarts after failing to save its cursor.
- Stopping a doorman and starting a new one for the same session: the new one knows nothing of a say or
  knock the old one held.
- Which assistant message owns the draft, tool summaries and elapsed times; `ChatDraft` is a value, not
  an object, and covers the draft of one say.
- Warnings, their cooldowns, and the health lines of the knock doorman.
- Blank say ids made of white space beyond ASCII, and the drafts and length limits of the chat Host.
- In the knock doorman's class each Host call is one atomic step; overlapping calls are modelled on values
  (`KnockOverlap`), with `AtOnceIsAtomic` between the two.
- Memos are values: a session holding a memo across an await while it is evicted and loaded again, the
  order of turns inside a memo, hash collisions of memo file names, and failed writes are not modelled.
- Rows of a sediment answer that are not objects; the memory bodies and the shelf around the columns.
- Which keys and JSON types a component manifest must have; the model starts from typed fields.
- Physical paths, symbolic links, reading and hashing of artifact files, and ordering of paths by UTF-16
  code units outside the Basic Multilingual Plane.
- Rendering, Godot node wiring, and the browser page around the sediment columns.
