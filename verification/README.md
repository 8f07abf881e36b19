# A verified model of the agent harness

The harness runs a model and its tools for a session. A coordinator writes everything it does to
an append-only log, hands tool work to an operation manager, and must be able to go on from the log
after any stop. This project models that core in Dafny and proves what its parts promise each other.
Verify it as a whole with `dafny verify dfyconfig.toml`.

Code that updates state in place is modelled by classes and methods with the loops of the source,
each proved against a function of the old state; the promises are lemmas about those functions, or
invariants of the classes, over every input and every run.

| part | files |
|---|---|
| coordinator loop and context builder | `ContextBuilder`, `CoordinatorState`, `LoopState`, `CoordinatorTrace`, `Coordinator`; proofs in `Tracking`, `ReplayProofs`, `Restarts`, `Acceptance`, `Accounting`, `Requests`, `RequestShape`, `InputContent`, `ResultContent`, for forks in `ForkLoads`, `ForkShape`, `ForkRequests`, and failing inputs in `Counterexamples` |
| session store | `Session`, `SessionState`, `SessionHeads`, `Codec`, `LogDecoder`, `Store`; proofs in `AppendRules`, `CodecProofs`, `ForkProofs`, `LawfulEncoding` |
| inbox | `Inbox`; over many processes in `ExactlyOnce` |
| SSE | `SseFramer`, `SseData`; the reference parser (WHATWG HTML Living Standard, sections 9.2.5 and 9.2.6) and the proofs in `SseReference`, and round trips with a writer in `SseEncoding` |
| shell operation and files | `ShellMachine`, `ShellActor`, `ShellProofs`, `ShellCapture`, `ShellRun`, `ShellHost`, `ShellRestarts`, `FileStream`, `Primitives`; truncation in `Output`, runes of arbitrary bytes (RFC 3629, sections 3 and 4) in `Utf8` and `Utf8Scalars` |
| operation manager | `Manager`; with the coordinator in `Delivery` |
| pagination | `Paginate` |

How a coordinator's run is modelled: `CoordinatorState.Apply` gives the effect of one step on the
local state and on the session, and `CoordinatorState.Run` that of a sequence of steps, restarts
included. The class `Coordinator` performs the iterations of the loop on its fields and keeps, as a
ghost trace, the steps that have led to its session, those of earlier processes included, so that
every lemma about runs applies to its fields. The events of an iteration, and what is drained after
them, are arbitrary inputs; identifiers, times, translations and failures are arbitrary choices.

What is assumed, each as a visible precondition or parameter:

- Call IDs that a model makes up are new, and its output holds no user messages and no tool results (`Accounting.Disciplined`; in a fork, of the inherited responses too). Lemmas about counters and about the shape of requests need it; replay equivalence does not.
- An operation is not updated after it has ended (`ReplayProofs.EnvironmentKeeps`). Only the equality of the values of operations after a restart, and the coverage of dispatched and canceled operations, need it; it follows from what managers guarantee (`Delivery.ManagersKeepEnvironment`).
- Translating calls and results is an arbitrary function (`CoordinatorState.Registry`). Which tools there are, and how a result reads for given operations, does not change between the processes of a session. That a call waits for exactly the operations it submitted is not assumed: the store enforces it.
- One coordinator at a time works on a session.
- Encoding a record and decoding it gives the record, and an encoding has no newline (`Codec.Lawful`; `LawfulEncoding` shows that this can be had).
- A captured file does not change once its process has exited, as far as reads of it are concerned. `StreamOpenFile` itself allows the size to have changed.
- A restarted shell goes on from the last checkpoint it emitted, where nothing else is said. The manager starts the primitives of a step before the checkpoint has been stored, so that a process can go on from an earlier one; `ShellRestarts` says what may then be dispatched again.
- The handler of an operation keeps its ID (`Manager.KeepsID`), and a primitive sends finitely many events and then one completing event.

What turned out not to hold as one might expect:

- An update that ends an operation whose end is already in the history is in the live state and in the store, but a restart does not see it, unless it says the same. These are exactly the updates that a restart does not see, in every state that a run leads to (`Restarts.UpdateIsSeenExactly`).
- A final result can carry the same output as the placeholder of a running call, since a command's output is arbitrary. Items of the model's input therefore carry a tag `final`, which only the statements look at; deleting placeholders compares outputs, as the source does.
- A fork inherits statuses without their operations, so that a call which has ended in the parent has no result in the fork either, unless it failed at once. The requests of a fork are well formed exactly when every inherited call has a status that waits for nothing.
- A call with an empty ID is taken and can never be scheduled: no request is sent in that session any more. A translation without an error that submits nothing is refused when it is scheduled.
- The manager panics when a remote job handler sends an update that names a running operation which is no remote job.
- `paginate` does not get on when the limit is smaller than the next character, and it panics when offset and limit overflow.

## Model

| member | source | states |
|---|---|---|
| `Tracking.RunsAreTracked` | harness/coordinator/loop.go:486-535 | Replay equivalence. After every step of every run, with restarts at any points and whatever updates the store accepts: restoring the session succeeds and gives back the live tool calls, turn, counters and model input, and knows the same operations |
| `ReplayProofs.RunsAreReplayable` | harness/coordinator/loop.go:486-535 | And as long as no update comes late, it gives back the live state, all of it, with the value of every operation |
| `Tracking.RestoreTracks` | harness/coordinator/loop.go:486-494 | Restoring a tracked session never fails and gives everything but the values of operations |
| `ReplayProofs.RestoreIsLive` | harness/coordinator/loop.go:486-494 | Although updates are not replayed in order but overlaid at the end, restoring gives the live values of operations too, when the saved ones are live and snapshots of ended ones are up to date |
| `Tracking.ActionTracks` | harness/coordinator/loop.go:346-484 | Every single step (input, turn, response, first status, final status, update, restart) keeps what is tracked, without assumptions about what comes in |
| `ReplayProofs.ActionFollows` | harness/coordinator/loop.go:346-484 | Every step other than a late update keeps the values of operations in agreement too |
| `Tracking.StatusIsSelfContained` | harness/coordinator/loop.go:541-641 | A status that carries a snapshot of all its call waits for has the same effect on a replayed state, whatever operations that one knows, as on the live one |
| `Tracking.ShowResultIsLocal` | harness/coordinator/loop.go:710-754 | The result of a call depends on no operation but those of the call |
| `Restarts.OperationsAfterRestart` | harness/sessionstore/localfile/state.go:286-318 | Over every run, with restarts at any points and whatever updates the store accepts, late ones too: an operation has ended in the coordinator if and only if it has in the store, before and after a restart; a restart takes its saved value, unless that and the snapshot in the history are both terminal, and then the snapshot |
| `Restarts.UpdateIsSeenExactly` | harness/sessionstore/localfile/state.go:286-318 | In any state that a run leads to, after late updates too, a restart sees an update if and only if it is not terminal, or the snapshot in the history is not, or the two are equal; the other operations do not depend on it |
| `Counterexamples.LateUpdateIsLost` | harness/coordinator/loop.go:478-494 | A run in which an operation that has ended is told to have ended once more with another value: the live state has that value, a restart does not |
| `Delivery.ManagersKeepEnvironment` | harness/operation/local_manager.go:113-256 | Over any number of processes, each with one manager that sends nothing after a terminal update and only updates of operations it was given: no update comes late, however schedules, updates and restarts interleave |
| `Delivery.ManagedRunsAreReplayable` | harness/coordinator/loop.go:943-962 | So with such managers every restart gives the live state, all of it |
| `ForkLoads.ForksLoad` | harness/sessionstore/localfile/state.go:320-364 | Every fork of a session that coordinators have written, at any of its turns, can be loaded, with no call open and no operation known, and can be forked in turn |
| `ForkLoads.RunsStayForkable` | harness/coordinator/loop.go:710-754 | What that takes is kept by every run: the history without its operations can be replayed, and comes to at least the open calls |
| `ReplayProofs.ForkIsReplayable` | harness/coordinator/loop.go:541-554 | Such a fork is a start of runs in which a restart gives the live state, although its calls and operations are forgotten |
| `ForkRequests.ForkIsWritten` | harness/sessionstore/localfile/state.go:388-412 | All that holds of sessions that coordinators have written holds of their forks, and of forks of these |
| `ForkRequests.RunsStayWritten` | harness/coordinator/loop.go:86-188 | And is kept by every run |
| `Acceptance.RunsKeepTurns` | harness/sessionstore/localfile/state.go:68-116 | Over every run, restarts included, the coordinator's current turn is the store's latest one, and whatever has a response is the session's own |
| `Acceptance.TurnIsAccepted` | harness/sessionstore/localfile/state.go:68-93 | So a turn under an ID that is new and not empty is never refused |
| `Acceptance.ResponseIsAccepted` | harness/sessionstore/localfile/state.go:95-116 | A response is taken exactly when its turn is owned and has none yet |
| `Acceptance.StartedTurnIsAnswered` | harness/coordinator/loop.go:346-388 | That is so from the start of a turn until it is answered or another is started, whatever comes in and however often the process is restarted: no response is refused for which the model was asked last |
| `Acceptance.FirstStatusIsAccepted` | harness/coordinator/loop.go:780-814 | The first status of a call is accepted exactly when its call ID is not empty, its operations are valid, new and those it waits for, and the translator of its tool can read its result |
| `Acceptance.EmptyCallIDIsTaken` | harness/sessionstore/localfile/state.go:95-116 | A response that asks for a call with an empty ID is taken, and leaves that call open without a status |
| `Acceptance.EmptyCallIDEndsSession` | harness/sessionstore/localfile/state.go:118-135 | From then on the call stays so over every run and every restart, and no request is sent any more |
| `Acceptance.FinalStatusIsAccepted` | harness/coordinator/loop.go:830-867 | A final status is refused exactly when the translator cannot read the result, never by the store |
| `Acceptance.InputIsAccepted` | harness/coordinator/loop.go:557-588 | An input is refused exactly when it is not well formed, or an external one whose payload is no text |
| `AppendRules.AppendsAreExact` | harness/sessionstore/localfile/state.go:56-177 | The store appends exactly: well-formed inputs, a turn under a new ID that names the latest turn as the one before it, the only response to a turn of the session's own, and a status of a call of such a turn that is not its first or whose operations can be stored, are new and are those it waits for, with none for an error |
| `AppendRules.SavesAreExact` | harness/sessionstore/localfile/state.go:265-284 | And saves exactly an operation that can be stored over one of the session's own of the same ID, type and version, leaving the others |
| `AppendRules.ReferencesAreExact` | harness/sessionstore/localfile/state.go:224-263 | The check of references accepts exactly distinct references that are the operations' IDs |
| `Acceptance.UpdateIsAccepted` | harness/sessionstore/localfile/state.go:265-284 | An update is refused exactly when it is not valid, is of no known operation, or changes type or version of the saved one; that it is late does not matter |
| `Acceptance.ForkAgreesOnTurn` | harness/sessionstore/localfile/state.go:388-412 | Every fork of a session that coordinators have written starts in that agreement |
| `Accounting.ItemKeepsAccount` | harness/coordinator/loop.go:557-618 | Whatever item comes, also a response to another turn or to a compaction turn: delivered <= current turn's inputs <= available, none of the three shrinks, available counts the user messages, heartbeats and final results of the built input and the current turn's count those of the committed prefix |
| `Accounting.HistoryKeepsAccount` | harness/coordinator/loop.go:496-521 | The same after every item of every history, forks included, and growth between any two of its items |
| `Accounting.RunsKeepAccount` | harness/coordinator/loop.go:86-188 | The same for the live coordinator over every run with restarts |
| `Accounting.ResponseDelivers` | harness/coordinator/loop.go:589-606 | A response to the current ordinary turn leaves pending exactly what has come in since its request; any other response leaves what is pending as it was |
| `Accounting.ResultKeepsAccount` | harness/coordinator/loop.go:680-691 | A result is counted exactly when it is final, and replacing placeholders takes no input away |
| `Requests.RequestsOnlyGrow` | harness/contextbuilder/builder.go:125-136 | In every history each request is a prefix of every later one and of the committed input |
| `Requests.SentIsRecorded` | harness/coordinator/loop.go:346-388 | What a run sends for a turn is what the recorded history says was built by then, across restarts |
| `Requests.RunsOnlyGrowRequests` | harness/coordinator/loop.go:346-388 | Over every run, restarts included, each request sent is a prefix of every later one |
| `Requests.ResponseFollowsItsRequest` | harness/coordinator/loop.go:153-159 | A response that is taken goes directly after the exact input that was sent for its turn, and what came in since stays behind it |
| `RequestShape.RequestsAreWellFormed` | harness/coordinator/loop.go:763-867 | Over every run of a new session, restarts included: each request sent is well formed, that is every call is followed by a result, every result comes after its call, and a call has at most one placeholder and after it at most one final result |
| `RequestShape.RunsKeepShape` | harness/coordinator/loop.go:763-867 | Over every run from a state in which some calls are lost, forgotten before they had a result: these stay lost, and each request is well formed if and only if there are none |
| `RequestShape.RequestIsWellFormed` | harness/contextbuilder/builder.go:103-136 | The input built while every open call has a status is well formed if and only if no call is lost |
| `RequestShape.ResultKeepsShape` | harness/contextbuilder/builder.go:103-123 | Showing a result replaces the staged placeholder of its call, and a committed one stays before it |
| `RequestShape.RecordedStatusIsShown` | harness/coordinator/loop.go:710-754 | A recorded status of an open call always shows a result, a final one when its operations have ended |
| `ForkRequests.ForkedRequestsAreWellFormed` | harness/coordinator/loop.go:544-555 | The requests of any fork of a session that coordinators have written, over every run of it: all are well formed if every inherited call has a status that waits for nothing, here and in the forks before, and none is otherwise; a caller can tell from the parent's log |
| `ForkShape.ReplayIsBare` | harness/coordinator/loop.go:710-754 | Replaying items that were inherited without operations: a call is open exactly as long as the log has no status of it that waits for nothing, and has no result till then |
| `ForkRequests.RunsKeepStatuses` | harness/coordinator/loop.go:830-867 | What is required of the parent's history, that all statuses of a call say the same, holds of every run |
| `ForkRequests.ForkKeepsStatuses` | harness/sessionstore/localfile/state.go:388-412 | And of every fork of such a session |
| `Counterexamples.ForkLosesFinishedCall` | harness/sessionstore/localfile/state.go:399-403 | A run whose call has ended and whose next request is well formed, and a fork of it in which that call has no result, because the status is inherited without its operation |
| `InputContent.InputIsShown` | harness/contextbuilder/builder.go:43-79 | What one input does: the text of an external input, or the reason of a heartbeat, goes behind all that was there, as a message of the user; a settings message sets the effort; nothing else does anything to the model's input |
| `InputContent.RunsShowInputs` | harness/coordinator/loop.go:557-588 | Over every run, restarts and forks included: the user's messages of the model's input, and of each request that is sent, are in order the texts of the session's external inputs and the reasons of its heartbeats up to then, and the effort is that of the last settings message |
| `InputContent.HistoryShowsInputs` | harness/coordinator/loop.go:496-521 | The same of what every history tells of the requests |
| `ResultContent.StatusShowsResult` | harness/coordinator/loop.go:710-754 | A recorded status of an open call has as its result, the last item of the model's input, what the call's tool makes of the snapshots it waits for, in that order, once they have all ended, and the running placeholder until then; the error when there is no such tool. The call closes exactly then |
| `ResultContent.ScheduleRecordsTranslation` | harness/coordinator/loop.go:780-828 | Scheduling puts into the session what the tool gave for the very call that the model made, with the operations it submitted, none of them started |
| `ResultContent.RunsAreTruthful` | harness/coordinator/loop.go:710-867 | Over every run, restarts included: every status in the session is what the tool of a call that the model made before gave for it, and every final result in the model's input, and in each request that is sent, is what that tool makes of the ended snapshots in a status that the session holds |
| `ResultContent.ForkIsTruthful` | harness/coordinator/loop.go:541-555 | Every fork starts so as well, so that its runs go on with it |
| `ResultContent.BareHistoryIsTruthful` | harness/coordinator/loop.go:710-754 | Even without operations the history shows no result but what a tool makes of nothing |
| `Counterexamples.RunToTheEnd` | harness/coordinator/loop.go:763-867 | A run whose call is scheduled, ends and is reconciled, and whose output the model sees |
| `LoopStates.LoopState.AddItemToLocalState` | harness/coordinator/loop.go:541-641 | The update in place does to the state, the builder and the grace set what the item means, for every kind of item and every error |
| `LoopStates.LoopState.AddToolResult` | harness/coordinator/loop.go:710-754 | The same for the result of a status: unavailable tools, unknown operations, running and final results |
| `LoopStates.LoopState.FinishToolCall` | harness/coordinator/loop.go:680-691 | Closing a call takes it out of the grace set and disarms the timer with the last one |
| `LoopStates.LoopState.GiveGrace` | harness/coordinator/loop.go:248-252 | The calls of the statuses join the grace set and the timer is armed |
| `ContextBuilder.Builder.AddToolResult` | harness/contextbuilder/builder.go:103-123 | The staged placeholders of the call are deleted in place and the result is appended |
| `ContextBuilder.Builder.Commit` | harness/contextbuilder/builder.go:125-128 | The staged suffix goes behind the committed prefix |
| `ContextBuilder.Builder.AddModelResponse` | harness/contextbuilder/builder.go:88-90 | The output goes behind the committed prefix and before what is staged |
| `Coordinators.Coordinator.RunLoop` | harness/coordinator/loop.go:86-188 | Run over any events. However it ends, another process can take over. A hard stop is wanted if and only if a message has asked this process for one, and a stop when idle if and only if a message has asked for that and none for a hard one; it returns exactly when nothing is unfinished and, for a stop when idle, no model call, input or tool call is open. While it waits: pending inputs imply a model call in flight or a nonempty grace set, a call in flight implies no grace, grace calls are open calls, every open call waits for an unfinished operation, after an accepted hard stop no turn was started, no response taken and no call scheduled |
| `Coordinators.Coordinator.Iterate` | harness/coordinator/loop.go:121-186 | One iteration keeps all that; the stop is what the messages that came in have asked for; what came in is recorded once and in order; an external input is in the request sent by its end; an event that is passed over changes nothing; a heartbeat is posted exactly when its timer has fired; it returns if and only if a stop is due |
| `Coordinators.Coordinator.PassesOver` | harness/coordinator/loop.go:127-159 | A response is passed over if and only if no call is in flight or it is to another turn than the current one; timers that are off are too, and nothing else |
| `Coordinators.Coordinator.SetHeartbeat` | harness/coordinator/loop.go:118-126 | The heartbeat timer runs only while no call is in flight, no hard stop is wanted, no input is pending and a tool call is open; otherwise it is off |
| `Coordinators.Coordinator.Conclude` | harness/coordinator/loop.go:163-186 | The end of an iteration: a request that holds all inputs, or a stop, which is taken if and only if it is due |
| `Coordinators.Coordinator.Start` | harness/coordinator/loop.go:90-116 | Taking over a session: restore, schedule, reconcile, dispatch and ask, after which the loop's invariant holds |
| `Coordinators.Coordinator.RestoreSession` | harness/coordinator/loop.go:486-535 | restore puts the fields in the state that the history and the resumed operations determine, and never refuses a session that coordinators have written |
| `Coordinators.Coordinator.ScheduleToolCalls` | harness/coordinator/loop.go:763-814 | Every call without a status gets one, whatever the order, its operations are new, ready and in the state, and of these calls exactly those that wait are open afterwards |
| `Coordinators.Coordinator.ReconcileToolCalls` | harness/coordinator/loop.go:830-867 | Whatever the order, exactly the calls whose operations have all ended are closed, and the others are as they were |
| `Coordinators.Coordinator.RequestModelResponse` | harness/coordinator/loop.go:346-388 | The request is what was built before the turn, with its effort, and holds every input; the turn is in the session before the model is called |
| `Coordinators.Coordinator.HandleInboxInput` | harness/coordinator/loop.go:390-415 | An input is recorded. One that asks for a hard stop gives that, one that asks for a stop when idle gives that unless the stop is hard, and any other leaves it; all but settings end the grace |
| `Coordinators.StopsInTurn` | harness/coordinator/loop.go:313-318 | What inputs ask for in turn is what they ask for together: a hard stop is never taken back |
| `Coordinators.Coordinator.ProcessModelResponse` | harness/coordinator/loop.go:225-254 | The response is recorded and its operations are dispatched as the state has them; the model is to be called at once if and only if one of the calls that it asks for has ended already, and otherwise exactly these calls get grace |
| `Coordinators.Coordinator.ProcessEvents` | harness/coordinator/loop.go:190-210 | What is drained is recorded, and the model is to be called exactly when asked for, or when inputs wait and neither a call nor a grace period is under way |
| `Coordinators.Coordinator.HandleOperationUpdate` | harness/coordinator/loop.go:478-484 | An update is in the state and in the store, and makes no ended operation unfinished |
| `Coordinators.Coordinator.HandleStop` | harness/coordinator/loop.go:261-270 | A hard stop interrupts the model and asks to cancel every unfinished operation, once, and is over when none is left |
| `Coordinators.Coordinator.DispatchOperations` | harness/coordinator/loop.go:943-962 | A process that takes over dispatches every unfinished operation once, as the state has it, and none that has ended |
| `Coordinators.Coordinator.Record` | harness/coordinator/loop.go:878-927 | An item that was added and stored is one step of the run; if storing fails, before or after the write, the session is still one a run leads to |
| `Coordinators.NewSessionIsReached` | harness/coordinator/loop.go:78-84 | A new session is a start from which the invariants hold |
| `Coordinators.ForkIsReached` | harness/coordinator/loop.go:541-554 | So is every fork of a session that coordinators have written |
| `Coordinators.ProcessKeepsItsPromises` | harness/coordinator/loop.go:86-188 | For the fields of a running coordinator of a session without forks: everything sent is well formed and only grows, the counters match the context, and restoring the session gives its state, with the values of operations as long as no update came late |
| `CoordinatorTrace.WaitingCallStaysOpen` | harness/coordinator/loop.go:780-814 | A call that waits for what it submitted is shown as running and stays open, so it can be given grace |
| `CoordinatorTrace.EndedCallCloses` | harness/coordinator/loop.go:780-814 | A call that waits for nothing is closed by its first status |
| `CoordinatorTrace.ReconciledCallCloses` | harness/coordinator/loop.go:830-867 | A final status closes its call and leaves the operations as they are |
| `CoordinatorTrace.StepIsReached` | harness/coordinator/loop.go:86-188 | The steps of one process go on from those of the processes before it |
| `Store.Store.AppendRecord` | harness/sessionstore/localfile/store.go:336-354 | Every cached head and size is what decoding its whole file gives, after success, failure and torn writes; the file then decodes to the state before the record or after it, and to the latter on success |
| `Store.Store.AppendFile` | harness/sessionstore/localfile/store.go:413-433 | The file is cut to the committed size and a write can stop at any byte |
| `Store.Store.LoadWriteState` | harness/sessionstore/localfile/store.go:302-321 | The cached head or the decoded one, which agree |
| `Store.Store.AppendToolCallStatus` | harness/sessionstore/localfile/store.go:180-205 | The status and the operations it initializes are in the session, or the session is unchanged |
| `Store.Store.AppendModelResponse` | harness/sessionstore/localfile/store.go:158-178 | The same for a response |
| `Store.Store.AppendTurn` | harness/sessionstore/localfile/store.go:140-156 | The same for a turn |
| `Store.Store.AppendInput` | harness/sessionstore/localfile/store.go:122-138 | The same for an input |
| `Store.Store.SaveOperation` | harness/sessionstore/localfile/store.go:207-229 | The same for an operation |
| `Store.Store.Create` | harness/sessionstore/localfile/store.go:71-84 | A new session decodes to the empty state, or nothing was published |
| `Store.Store.Fork` | harness/sessionstore/localfile/store.go:239-264 | A published fork decodes to the fork of the parent's state; parent and other sessions are unchanged |
| `Store.Store.ResumeSession` | harness/sessionstore/localfile/store.go:231-237 | Resume answers from the file, never from the cache |
| `Store.Store.LoadHistory` | harness/coordinator/loop.go:496-521 | Paging through a session with pages of any size ends and gives all its items once |
| `Store.FileAfterAppend` | harness/sessionstore/localfile/store.go:413-433 | However far a write came, the file decodes to the state before the record or after it |
| `CodecProofs.AppendedLineDecodes` | harness/sessionstore/localfile/codec.go:87-206 | A log with one more line decodes to the old state with the record applied: the head updated in memory is the head of the file |
| `CodecProofs.CrashLeavesBeforeOrAfter` | harness/sessionstore/localfile/codec.go:87-110 | A crash at any byte of an append leaves a log that decodes to exactly the state before the record or after it |
| `CodecProofs.TornTailIsIgnored` | harness/sessionstore/localfile/codec.go:87-110 | Bytes after the last newline do not matter |
| `CodecProofs.DecodeIsCanonical` | harness/sessionstore/localfile/codec.go:112-206 | Whatever bytes a log holds: if it decodes, items are in contiguous sequence and each operation is at its recorded position |
| `CodecProofs.BadLogsAreRefused` | harness/sessionstore/localfile/codec.go:112-175 | A log is refused unless each line can be read, the first, and no other, is a session record of version 2 with a valid ID and a time, items have times, and only statuses have operations |
| `LawfulEncoding.LawfulEncodingExists` | harness/sessionstore/localfile/codec.go:230-243 | There is an encoding of all records such as the log assumes: it can be decoded, and has no newline |
| `LogDecoder.DecodeLog` | harness/sessionstore/localfile/codec.go:87-206 | The two passes over the lines compute the decoding that the properties are about, for every log |
| `LogDecoder.EncodeInitialLog` | harness/sessionstore/localfile/codec.go:50-85 | The initial log holds the session record and the items |
| `LogDecoder.ReplayLog` | harness/sessionstore/localfile/codec.go:177-206 | The second pass inherits up to the last fork and replays after it |
| `SessionHeads.SessionHead.AppendToolCallStatus` | harness/sessionstore/localfile/state.go:118-177 | The head is updated in place as the state's append says; one that is refused changes nothing |
| `SessionHeads.SessionHead.AppendTurn` | harness/sessionstore/localfile/state.go:68-93 | The same for a turn: empty, out of order and repeated IDs are refused |
| `SessionHeads.SessionHead.AppendModelResponse` | harness/sessionstore/localfile/state.go:95-116 | The same for a response: only owned turns, and each once |
| `SessionHeads.SessionHead.SaveOperation` | harness/sessionstore/localfile/state.go:265-284 | The operation is overwritten at its position; unknown ones and changes of type or version are refused |
| `SessionHeads.SessionHead.InheritItem` | harness/sessionstore/localfile/state.go:388-412 | An inherited item is noted without its operations |
| `SessionHeads.ForkStoredState` | harness/sessionstore/localfile/state.go:320-364 | The loop over the parent's items builds the fork, or fails as the turn is not there |
| `SessionHeads.ComputeResume` | harness/sessionstore/localfile/state.go:286-318 | The loops of resume compute what is handed back |
| `ForkProofs.ForkRoundTrip` | harness/sessionstore/localfile/state.go:320-364 | Decoding the initial log of any fork, of a fork of a fork too, gives the forked state: the parent's items up to the boundary, the fork item, contiguous sequence numbers |
| `ForkProofs.ForkOwnsNothing` | harness/sessionstore/localfile/state.go:414-420 | The child owns no inherited turn, status or operation, and resuming it hands nothing back |
| `ForkProofs.ForkStaysIsolated` | harness/sessionstore/localfile/state.go:68-177 | For the whole life of a fork, over any appends and saves: no response or status of an inherited turn is ever accepted, nor a turn under its ID, and a save only under an ID that the fork itself has initialized an operation with |
| `ForkProofs.BoundaryEndsTurn` | harness/sessionstore/localfile/state.go:326-345 | A fork goes up to the last item of its turn before another turn begins, and fails exactly when nothing belongs to the turn |
| `ForkProofs.ResumeIsExact` | harness/sessionstore/localfile/state.go:286-318 | resume hands back exactly the operations whose latest saved state or whose latest snapshot in the history is unfinished |
| `ForkProofs.PendingMeaning` | harness/sessionstore/localfile/state.go:286-318 | The set kept by its loop is that of the operations whose latest snapshot is unfinished |
| `Inbox.FirstsComeOnce` | harness/inbox/local.go:59-87 | Exactly once: every ID that was not seen comes out, and none comes out twice |
| `Inbox.FirstComesOut` | harness/inbox/local.go:74-79 | What comes out is the input first submitted under its ID |
| `Inbox.FirstsStayInOrder` | harness/inbox/local.go:59-87 | First in, first out |
| `Inbox.Queue.Run` | harness/inbox/local.go:59-87 | In whatever order submissions and receivers come, what goes out is the beginning of those first submissions |
| `Inbox.Queue.Submit` | harness/inbox/local.go:33-53 | Invalid inputs are refused; the rest enter the queue unless their ID is seen |
| `Inbox.NewInbox` | harness/inbox/local.go:16-31 | The inbox is seeded with the seen IDs; an empty one is an error |
| `ExactlyOnce.ExternalInputsOnce` | harness/coordinator/loop.go:390-427 | No external input is twice in a session's items over any number of processes, however often it is submitted |
| `ExactlyOnce.ForkKeepsInputsOnce` | harness/sessionstore/localfile/state.go:286-295 | The same holds for inherited history |
| `SseFramer.Framer.Append` | harness/primitives/remote_sse.go:33-114 | The loop over segments does byte for byte what the framer's automaton does, in both modes |
| `SseFramer.Framer.AppendFrameBytes` | harness/primitives/remote_sse.go:129-137 | Bytes join the frame unless it would become too large |
| `SseFramer.Framer.TakeFrame` | harness/primitives/remote_sse.go:139-150 | The frame is emitted, stripped or whole, at its offset |
| `SseFramer.Framer.Finish` | harness/primitives/remote_sse.go:116-127 | An unfinished frame is emitted in pass-through mode and dropped in strip mode |
| `SseReference.ChunksDoNotMatter` | harness/primitives/remote_sse.go:33-127 | In strip mode every cutting of a stream into appends gives the frames and the size verdict of a whole-stream parser in which CR, LF and CRLF end lines and a blank line ends a frame |
| `SseReference.FramerParses` | harness/primitives/remote_sse.go:33-114 | The automaton does what that parser does, from any line on |
| `SseReference.BlocksMakeUpStream` | harness/primitives/remote_sse.go:33-150 | The parser loses nothing: frames on the wire and remainder make up the stream, and the remainder holds no complete frame |
| `SseReference.ParseEmitsBlocks` | harness/primitives/remote_sse.go:139-150 | Without a size error exactly the complete frames are emitted |
| `SseReference.FramesLieEndToEnd` | harness/primitives/remote_sse.go:139-150 | The offset of each frame in strip mode is the size of the data of those before it |
| `SseReference.FailsExactlyWhenTooLarge` | harness/primitives/remote_sse.go:129-137 | A size error occurs exactly when a frame with its terminators, or the unfinished rest, exceeds the maximum |
| `SseReference.SizeVerdict` | harness/primitives/remote_sse.go:129-154 | So it does in both modes and for every cutting |
| `SseReference.PassThroughConserves` | harness/primitives/remote_sse.go:45-66 | In pass-through mode emitted data followed by finish is the whole input with offsets contiguous from zero; after a size error it is a prefix |
| `SseReference.StreamFrames` | harness/primitives/remote.go:299-345 | One framer over all chunks of a response has these properties |
| `SseEncoding.FrameIsRead` | harness/primitives/remote_sse.go:33-150 | Round trip with a writer of streams: lines that are not blank, ended each by LF, CR or CRLF, and then a blank one are read as the first frame of whatever stream they begin, with nothing of what follows |
| `SseEncoding.UnfinishedIsNoFrame` | harness/primitives/remote_sse.go:116-127 | And lines without a blank one after them are no frame |
| `SseData.ExtractData` | harness/primitives/sse.go:7-23 | The loop over lines computes the data of an event, of which DataOfEncoded says what it is |
| `SseEncoding.DataOfEncoded` | harness/primitives/sse.go:7-23 | Round trip with a writer of frames: the data is the values of the data fields joined with line feeds, with or without one space after the colon, the empty value without a colon, whatever other fields, comments and blank lines stand between them and however lines end; there is none without data fields, and a byte order mark before it does not matter |
| `SseEncoding.FrameIsEncoded` | harness/primitives/sse.go:7-23 | Every frame that ends in a line break is written so, so that this is the data of every frame |
| `SseData.StrippingKeepsData` | harness/primitives/remote_sse.go:139-150 | The data of a stripped frame is that of its wire bytes, for every frame of every stream |
| `Output.PartsGiveWholeTruncation` | harness/operation/output.go:17-37 | For any bytes and any limit, truncating from the bounded head and tail gives what truncating the whole file gives |
| `Output.TruncationMeaning` | harness/operation/output.go:17-37 | It never panics; a text within the limit comes back whole, and as it is when it is valid UTF-8; any other loses a nonempty run of bytes, and between head and tail stand its length in decimal and the path of the whole output |
| `Output.DigitsReadBack` | harness/operation/output.go:27-33 | A number is written in decimal digits that read back as it, without leading zeros |
| `Output.BoundOutput` | harness/operation/output.go:17-37 | The computation on the parts, every branch and its panic |
| `Output.TailPart` | harness/operation/output.go:39-56 | The loop keeps exactly the last runes and counts their bytes |
| `Output.HeadPart` | harness/operation/output.go:39-56 | The loop keeps exactly the first runes and counts their bytes |
| `Utf8.HeadMeetsTail` | harness/operation/output.go:39-56 | The first n runes decoded forward and the others decoded backward make up any bytes |
| `Utf8.HeadAndTailDoNotOverlap` | harness/operation/output.go:17-37 | Fewer runes than there are, taken from both ends, leave bytes between them |
| `Utf8.HeadIsLocal` | harness/operation/shell.go:623-625 | The first n runes are decided by the first 4n bytes |
| `Utf8.TailIsLocal` | harness/operation/shell.go:627-630 | The last n runes are decided by the last 4n bytes |
| `Utf8.SanitizeIsValid` | harness/operation/output.go:58-60 | Sanitizing gives valid UTF-8 with as many runes |
| `Utf8Scalars.EncodedIsValid` | harness/operation/output.go:17-60 | The encodings of Unicode scalar values are valid texts, with as many runes |
| `Utf8Scalars.ValidIsEncoded` | harness/operation/output.go:17-60 | And every valid text is the encoding of scalar values, its runes |
| `ShellHost.WholeRunReports` | harness/operation/shell.go:118-458 | On a host that performs what the shell dispatches on its files, a run in which all primitives succeed runs the program with the command in the directory, and completes: the two paths it reports, of the files out and err in its own folder, hold what the process wrote to stdout and to stderr, each text is the truncation of what its path holds, with its size and the exit code, and no other file has changed; and all of this, to the last field, whatever restarts there were outside the process phase |
| `ShellHost.CompletedShellReportsTruncation` | harness/operation/shell.go:342-458 | From the first read on the shell completes with the truncation of what each of its two files holds, wherever its reads are cut short |
| `ShellHost.RunsComplete` | harness/operation/shell.go:212-245 | Each phase leads on, and as it would without restarts |
| `ShellHost.ReadAdvances` | harness/operation/shell.go:342-404 | A read that is performed on the file at its path, however often it is cut short and started again, ends as its completion |
| `ShellHost.CreateAdvances` | harness/primitives/file_create_unix.go:17-135 | What a create phase asks for is created, or used if it is there, at its own path and of its own kind, and the next phase is entered |
| `ShellHost.ProcessAdvances` | harness/primitives/process.go:526-675 | The process starts only with two different files that are there, and its exit leads to the first read |
| `ShellHost.LastEventCompletes` | harness/operation/local_manager.go:231-247 | Of the events of any primitive, the last one is the only one that the manager counts as its completion |
| `ShellRun.ExitStartsReads` | harness/operation/shell.go:322-333 | An exit event leads to the first read, with the exit code recorded, or 128 more than the signal |
| `ShellRun.FailureEnds` | harness/operation/shell.go:247-284 | A primitive that fails ends the operation with its error, truncated, and one that is canceled ends it as canceled; nothing more is dispatched |
| `ShellRun.StrayEventsFail` | harness/operation/shell.go:247-284 | So does, as a failure, an event of another operation or of another phase |
| `ShellRun.ProcessIsNotResumed` | harness/operation/shell.go:194-210 | A restart while the process may run ends the operation as failed, without starting it again |
| `ShellRun.CancelingEnds` | harness/operation/shell.go:118-150 | An operation that is to be canceled ends so when it is loaded, and one that has ended refuses every event |
| `ShellCapture.ConsumesStream` | harness/operation/shell.go:368-404 | Producer and consumer agree: the shell accepts every event of an undisturbed read, dispatches nothing till its end, and what it has read is the requested slice |
| `ShellProofs.ShellLifecycle` | harness/operation/shell.go:118-150 | Over any events and any restarts from the last emitted checkpoint: the process is dispatched at most once, nothing follows a terminal status, the last checkpoint loads, and completion implies an exit code that was reported |
| `ShellRestarts.EarlyRestartsStartAgain` | harness/operation/local_manager.go:258-289 | With restarts from any checkpoint emitted so far, for a process that stops before its last ones are stored: the process is dispatched at most once, and once more for each restart from before the process phase |
| `ShellRestarts.StartsAgainExactly` | harness/operation/shell.go:194-245 | A restart can have it dispatched again if and only if its checkpoint precedes the process phase |
| `ShellProofs.PhasesMoveForward` | harness/operation/shell.go:212-245 | Phases only move forward between any two moments of a run |
| `ShellProofs.HandleIsGood` | harness/operation/shell.go:118-150 | Each event keeps a shell sound; its checkpoint is the operation, and an end has no dispatch |
| `ShellProofs.ResumeRepeatsPhase` | harness/operation/shell.go:194-245 | Outside the process phase a reload dispatches what the phase dispatched |
| `ShellProofs.ExitCodeFlows` | harness/operation/shell.go:309-340 | A reported exit code was told of by an exit event |
| `ShellActors.ShellActor.Handle` | harness/operation/shell.go:118-150 | The actor's updates in place carry out the phase machine, for every event in every state |
| `ShellActors.ShellActor.ReadEvent` | harness/operation/shell.go:368-404 | The same for read events |
| `ShellActors.ShellActor.ReadCompleted` | harness/operation/shell.go:406-434 | The same at the end of a read: whether the tail has to be read too |
| `ShellActors.ShellActor.Finish` | harness/operation/shell.go:436-458 | The same at the end: both texts are bounded |
| `ShellActors.ShellActor.ProcessEvent` | harness/operation/shell.go:309-340 | The same for process events |
| `FileStream.StreamOpenFile` | harness/primitives/file.go:99-190 | An undisturbed read of a stable file sends contiguous chunks and one completion; every other read ends in one failure or cancellation |
| `FileStream.StreamFile` | harness/primitives/file.go:47-97 | Requests that are not valid, and files that cannot be opened, send one terminal event |
| `FileStream.ChunksAreTheSlice` | harness/primitives/file.go:99-145 | The joined chunks are the file from the offset, of length min(count, size - offset) |
| `Manager.UpdatesEndOnce` | harness/operation/local_manager.go:113-256 | The queued updates of an operation are nonterminal ones, at most one terminal one, and nothing after it |
| `Manager.LocalOperationManager.Run` | harness/operation/local_manager.go:113-256 | Over any events: nothing follows a terminal update, an operation runs exactly while it is accepted and has not ended, and none is taken on twice; it ends by panicking only at an update from a handler for a running operation that is no remote job, never when no such update comes, and otherwise with every primitive completed |
| `Manager.LocalOperationManager.TakeEvent` | harness/operation/local_manager.go:113-256 | One event panics if and only if it is such an update |
| `Manager.MisdirectedUpdatePanics` | harness/operation/local_manager.go:205-217 | Such an event, after any one operation has been added to a new manager |
| `Manager.LocalOperationManager.AddOperation` | harness/operation/local_manager.go:133-173 | An accepted ID is not started again, one whose first step fails is not accepted, and only its own operation is touched |
| `Manager.LocalOperationManager.AcceptStep` | harness/operation/local_manager.go:258-289 | The update of a step comes first; after a terminal one nothing is started; the count is that of the primitives started |
| `Manager.LocalOperationManager.StartPrimitives` | harness/operation/local_manager.go:272-288 | A primitive that cannot be started is a failure for the handler to answer, and those started before it still count |
| `Manager.LocalOperationManager.TakePrimitiveEvent` | harness/operation/local_manager.go:231-247 | A completing event is counted down once; events for ended operations are dropped; the completion of a canceled one reads as a cancellation |
| `Manager.LocalOperationManager.TakeRemoteUpdate` | harness/operation/local_manager.go:190-230 | An update of a remote job is passed on when it comes from its handler and is valid, and fails the job otherwise; one that names a running operation which is no remote job panics, as refusing it takes the handler numbered -1 |
| `Manager.TransitionsGoForward` | harness/operation/remote_job_handler.go:139-152 | A valid update of a remote job never goes back, never leaves an end, and does not complete what is being canceled; every other is valid |
| `Manager.LocalOperationManager.FailRemoteJob` | harness/operation/local_manager.go:302-315 | Failing a job tells its handler first, which a local operation does not have |
| `Manager.LocalOperationManager.CloseHandler` | harness/operation/local_manager.go:191-204 | A stopped handler fails all its jobs and no others |
| `Manager.LocalOperationManager.DrainPrimitives` | harness/operation/local_manager.go:317-324 | Draining ends, whatever the order of events |
| `Paginate.Paginate` | gui/tools.go:290-310 | The loops to the next and back to the last rune start compute the page |
| `Paginate.BeginIsInText` | gui/tools.go:290-298 | A page begins at the first rune start from the offset on, or at the end of the text |
| `Paginate.PagesCoverText` | gui/tools.go:290-310 | For valid UTF-8 and a limit of at least 4 or none, following the offsets ends, every body is valid and within the limit, and the bodies make up the text |
| `Paginate.PageOfValidText` | gui/tools.go:290-310 | With any limit a page gets on if and only if its first rune fits in the limit |
| `Paginate.TooSmallLimitDoesNotGetOn` | gui/tools.go:300-305 | Otherwise it is empty and says to continue where it is |
| `Paginate.PanicsExactlyOnOverflow` | gui/tools.go:299-304 | It panics if and only if the starting offset and the limit add up to more than an int holds |

## Left out

- Texts of errors, and quoted values in them: errors are named by kind, and the wrapping of causes is dropped.
- JSON: records are encoded by an abstract pair of functions; a payload is modelled together with what decoding it gives.
- Items whose kind and data disagree, and unknown kinds: the datatypes have none.
- The context of a Go call and goroutines: a canceled context, a refused channel operation or a failed call is an arbitrary choice or an event.
- Durations: grace and heartbeat timers are events that can come once armed; `ToolHeartbeatInterval` only matters as negative, zero or positive.
- The drain of channels with its idle timeout and its limit of 100: what is drained is an arbitrary sequence.
- `Coordinators.Coordinator.RunLoop`: the model call that `Run` interrupts on its way out is not modelled, and neither is the file behind the session, which `Store` treats; a failed append is one that left the state before the item or after it.
- `Store.Store.AppendRecord`: the source copies the head and shares its maps and slices with the cache; the model shares the head as one object, so every update is visible in the cache at once. Observers, directories, temporary files and syncing are reduced to appends and replacements that can fail.
- `Store.Store.LoadHistory`: has no error for a page that does not advance, because every page does.
- `ContextBuilder.Builder.AddToolResult`: the model name, tools, skills and prompt text of a request are left out; requests are modelled by their effort and their input under a fixed system prompt.
- `ShellHost.WholeRunReports`: path cleaning, permissions, links and the environment of the process are left out of the host; and so is a process that fails to start, of which `ShellRun.FailureEnds` says what becomes.
- `ShellMachine`: path cleaning, permissions and environment of the process are left out, and so are the values quoted in the texts of its failures.
- `Manager.LocalOperationManager.Run`: which operation types exist, matching a remote job to a handler and the answers of handlers are arbitrary inputs; a cancellation that a remote handler refuses only changes an error text; `failLocalOperation` of an operation whose state cannot be decoded is not modelled as a panic, because accepted operations have been validated. Updates still queued when the manager stops are dropped, as in the source; the coordinator gets those operations back from the store.
- `Paginate.Paginate`: the sentence that tells how to continue is reduced to the offset in it.
- Image viewing, skill use, remote retries, HTTP, process groups and signals, document extraction, the GUI server, command lines: thin or third-party code, or closed forms with easy properties.
- Heartbeat texts: that a heartbeat is only posted while nothing but tool calls is waited for is in the precondition of `PostHeartbeat`; it then comes in like any other input.
