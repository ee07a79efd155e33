# Model and proofs of the model server and its neighbours

Session runtimes send steps to one model server over links. On the model server, one reader thread
per link, one step thread and any number of threads that finish futures share a set of tables under
one condition. This project models that server, the client at the other end of a link, the
shared-memory path between them, and the smaller cores around them, and proves what each of them is
relied on for over every run and every interleaving.

How the models are built:

* **The model server** is a state machine (`ServerCore`): each region under the condition is one
  step, the step thread carries what it is in the middle of from step to step, calls into the model
  return anything, and a future may be done at any moment after `step()` returned it, a synchronous
  `cancel()` included. Beside the tables it keeps bookkeeping that no branch reads: a ledger of the
  accepted requests by their arrival number, the fate of each, the outbox of each connection as a
  sequence of messages, and the log of the calls into the model. `Reached(s)` says that some
  interleaving of some server reaches `s`; the theorems of `ServerProperties` are about every such
  state. The same regions are written again as a class whose fields are updated in place
  (`ModelServers`), each method proved to do exactly what its step of the state machine does.
* **End to end** (`EndToEnd`), one session's client is composed with the server, the messages on
  their way, and any number of other sessions; `Occurs(y)` says that some run reaches `y`.
* **Shared memory** is modelled as named blocks whose bytes are overwritten with no acknowledgement
  (`ShmLinks`), and as the files of one slot's directory (`ShmDirectory`).
* The other cores are each one module, or two: the specification and its lemmas, and the class or the
  loops that the source is written as.

| module | models |
|---|---|
| `Batching`, `BatchPolicies` | the batching policy: queue, busy sessions, `take` |
| `RequestTable`, `CallLog`, `ServerCore` | requests, the log of model calls, every step of the server |
| `LinkInvariant`, `RequestInvariant`, `LogInvariant`, `AnswerInvariant`, `AnswerSteps`, `AnswerErrands`, `AnswerTurns`, `EndInvariant` | what every step keeps: the connection tables, the request tables, the log, the answers, the end of the server's life |
| `ServerProperties`, `FinalFates`, `ResultOrder`, `ServerRuns`, `StepWaits` | the theorems over every run; what became of a request is final; results come in order; when a cancel is recorded, and runs that show it; how long the step thread sleeps |
| `StepOutputs`, `SessionReplies` | which request each output of `step()` answers; what every other region takes, refuses and tells a session |
| `ModelServers` | the class with the tables as fields |
| `Clients`, `ModelClients`, `SessionView`, `SessionSteps`, `EndToEnd`, `ResultIds`, `ClientCalls`, `EndToEndRun` | the client, its class, what a server step does to one session, the composition, the ids of its results, what its calls send and return, a run in which a step returns |
| `Slots`, `Payloads`, `ShmLinks`, `ShmReplies`, `ShmUnsent`, `ShmLinkEnds`, `ShmDirectory`, `ShmBound` | blocks, packed objects, one link, what its session is answered, cancels that were not sent, its class, one slot's directory, what fits its volume |
| `Lockstep`, `Runners` | the rank group and its loops |
| `EventStreams`, `EventJournals` | the journal and its class |
| `Services`, `Framing`, `Quantities`, `TypeSpecs` | component order and wind-down, frames over short reads, sizes, field types |

## Findings

Six things the code does differently from what its documentation says, or from what one would
expect; the code is modelled as it is.

* `shm_slot_bytes` is documented as the most shared memory a slot holds. Four races pass it. A link set
  up late, after the link that replaced it, puts its probe beside two request blocks
  (`ShmBound.LateSetUpOverfills`). A link closed while it is set up keeps the output block it creates
  beside the next link's (`ShmBound.ClosedSetUpOverfills`). A link replaced after it created its probe and
  before it recorded it leaves the probe there, though every link takes the slot in order
  (`ShmBound.EarlyReleaseOverfills`). A release that took a link's blocks and has not unlinked them yet
  leaves them beside the next link's (`ShmBound.SlowReleaseOverfills`). Over every run, the files fit,
  whatever the sizes, exactly when no output block left behind is beside another and there are three
  files at most (`ShmBound.FitsExactlyWhen`). From any reachable state, they fit for good, as long as
  set-ups are orderly, exactly when nothing is left behind for good and what is still to come fits
  beside what is there (`ShmBound.FitsForGoodExactlyWhen`); each of the four races always leaves a state
  where they do not (`ShmBound.RacesOverfill`).
* A step that was given up and whose cancel could not be sent can be overwritten by the next one, and
  the server can read it wrong (`ShmLinks.UnsentCancelCorrupts`): right after it is given up, exactly if
  its header is still unread and it has bytes (`ShmUnsent.WrongExactlyIfUnread`). Every other step is read
  intact (`ShmLinks.PayloadsIntact`), and stays so (`ShmUnsent.ReadStaysIntact`).
* A cancel that arrives after its request was taken, but before its future is known, is not recorded:
  the request is answered (`ServerRuns.UnrecordedCancelIsAnswered`), and the client drops the answer. A
  cancel is recorded exactly if its request is still queued, or its future is known and nothing answered
  it yet (`ServerRuns.CancelRecordsExactlyWhen`); once it is recorded the request is never answered
  (`FinalFates.NoAnswerOnceWithdrawn`).
* `_reset_pending` is a set, so with two resets of one session queued it is cleared at the first, and a
  step that comes before the second is accepted (`ServerRuns.FirstResetClearsMark`). The client never
  steps in between (`EndToEnd.AgreedWhenUsable`).
* A drain or a stop that raises past `Exception`, a cancellation for one, ends the wind-down: the drains
  and stops after it are not called (`Services.CutAtEscape`). Every component is drained and stopped once
  exactly when no drain raises so, and no stop but the last (`Services.EachDrainedThenStopped`).
* A size whose exponent has more than 4300 digits is refused whatever it is worth, because Python's
  `int()` does not convert that many (`Quantities.LongExponentRefused`); every other string is read
  exactly (`Quantities.ReadsExactly`).

## Model

| member | source | states |
|---|---|---|
| Batching.TakeSplits | src/reactor_runtime/model_server/batching.py:120-144 | a take splits the queue, as a multiset, exactly into expired, batch and rest; nothing expired is in the batch; batch and rest are the requests still in time, in order; the batch is within the limit, and full when it leaves anything behind |
| Batching.HoldsBackOnlyBeforeWake | src/reactor_runtime/model_server/batching.py:133-141 | requests are held back only before the wake time, which is no later than the end of the oldest one's window and than every waiting deadline, and only while the batch is not full |
| Batching.HeldBackExactlyWhen | src/reactor_runtime/model_server/batching.py:128-144 | with one request per session, a take holds back exactly when those in time are fewer than `max_batch`, fewer than the open sessions with none running, and the oldest one's window has not ended; it wakes at exactly the earliest of that end and the waiting deadlines; otherwise it steps the first `max_batch` of them |
| Batching.WakesToWork | src/reactor_runtime/model_server/batching.py:128-144 | asked again at or after the wake time, with anything queued behind meanwhile and any number of open sessions, the policy steps or expires something |
| Batching.RunningCountsTheRest | src/reactor_runtime/model_server/batching.py:136 | the count taken as running is the number of busy sessions that have nothing queued |
| Batching.NeverHoldsBackWhenAllWait | src/reactor_runtime/model_server/batching.py:63-71 | once the expired requests are out, never held back when `max_batch` wait, nor when every open session not running a request has one waiting |
| Batching.SteppedInArrivalOrder | src/reactor_runtime/model_server/batching.py:85-144 | over any run of add, cancel, drop, finished and take, the batches put end to end are in strictly increasing arrival order |
| Batching.LeavesQueueInTime | src/reactor_runtime/model_server/batching.py:85-144 | a request with k ahead of it has left the queue after k / max_batch + 1 non-empty batches, whatever happens in between |
| BatchPolicies.BatchPolicy.Add | src/reactor_runtime/model_server/batching.py:85-92 | the new queue and busy set are the specification's; refused exactly when the session is busy |
| BatchPolicies.BatchPolicy.Cancel | src/reactor_runtime/model_server/batching.py:94-101 | the search loop withdraws the first match, as the specification does, and says whether there was one |
| BatchPolicies.BatchPolicy.Drop | src/reactor_runtime/model_server/batching.py:103-108 | the loop removes exactly the session's requests, returns them in order, and frees it |
| BatchPolicies.BatchPolicy.Finished | src/reactor_runtime/model_server/batching.py:110-113 | exactly the named sessions are freed |
| BatchPolicies.BatchPolicy.Purge | src/reactor_runtime/model_server/batching.py:128-132 | exactly the expired requests leave the queue, in order, and their sessions are freed |
| BatchPolicies.BatchPolicy.Take | src/reactor_runtime/model_server/batching.py:120-144 | the turn and the new queue are the specification's, which `TakeSplits` and the lemmas above are about |
| RequestTable.BusyMeansOneRequest | src/reactor_runtime/model_server/batching.py:85-113 | in any consistent state of policy, batch and table, a session is busy exactly when one request holds it, and never two |
| CallLog.ClosedBeforeReopened | src/reactor_runtime/model_server/server_core.py:790-799 | between two openings of a slot the first one's generation is closed, and the second one's is larger |
| CallLog.ClosedOnce | src/reactor_runtime/model_server/server_core.py:746-760 | an opened generation is closed at most once, and exactly once when nothing is left open |
| CallLog.StaysOpen | src/reactor_runtime/model_server/server_core.py:834-862 | while it is not closed, an opened generation is the one its slot has open |
| ServerProperties.NextKeeps | src/reactor_runtime/model_server/server_core.py:252-951 | every step of every thread keeps every invariant of the server |
| ServerProperties.ReachedOk | src/reactor_runtime/model_server/server_core.py:252-951 | so every state of every run satisfies them |
| ServerProperties.ConnectionsAgree | src/reactor_runtime/model_server/server_core.py:387-467 | in every run no `ConnectionMoveError` or `ServerMoveError` is raised, every move of either being checked; at most `max_sessions` are open and at most that many are opening; between two events of the step thread `_connections`, `_by_slot` and the open connections are the same |
| ServerProperties.ExactlyOnePlace | src/reactor_runtime/model_server/server_core.py:486-512 | in every run an accepted request without an answer is in the queue, the batch taken or `_pending`, and no request is in two of them or twice in one |
| ServerProperties.BusyExactlyOnce | src/reactor_runtime/model_server/server_core.py:910-946 | in every run a session is in `_busy` exactly when it has a request in the queue, in the batch taken, or in `_pending` and not detached; it never has two, in one of these or in two of them |
| ServerProperties.AtMostOneAnswer | src/reactor_runtime/model_server/server_core.py:910-930 | in every run an accepted request is answered at most once over all outboxes, in its own session's and under its own id; one that is withdrawn has no answer |
| FinalFates.FatesAreFinal | src/reactor_runtime/model_server/server_core.py:486-951 | no step of any thread changes what became of a request once it was answered, withdrawn or lost |
| FinalFates.NoAnswerOnceWithdrawn | src/reactor_runtime/model_server/server_core.py:514-535 | once a cancel withdrew a request, no later state of any run has an answer to it in any outbox |
| ServerRuns.CancelRecordsExactlyWhen | src/reactor_runtime/model_server/server_core.py:521-533 | in every run a cancel of its session and id withdraws a request if and only if it is queued, or it is pending with a known future and its answer still awaited |
| ServerRuns.UnrecordedCancelIsAnswered | src/reactor_runtime/model_server/server_core.py:834-887 | a run in which the cancel comes between the take and the insert, and its request is answered |
| ServerRuns.FirstResetClearsMark | src/reactor_runtime/model_server/server_core.py:537-549 | a run with two resets queued in which the first clears the mark while the second is still to be applied, and a step is accepted |
| ServerProperties.AllAnsweredByStop | src/reactor_runtime/model_server/server_core.py:278-297 | when `stop()` has returned, every accepted request not cancelled, of a session that was open until then and whose link held, has exactly one answer, ahead of the flush that closes the link |
| ServerProperties.ModelCallsBracketed | src/reactor_runtime/model_server/server_core.py:685-862 | in every run the calls into the model are well bracketed: an open follows a close, generations increase, a close names the open generation, a step has 1 to `max_batch` requests of distinct slots whose generation is open; after `stop()` nothing is open |
| ServerProperties.OnlyItsCancelWithdraws | src/reactor_runtime/model_server/server_core.py:514-535 | a request becomes cancelled only by a cancel of its own session for its own id |
| ResultOrder.ResultsInOrder | src/reactor_runtime/model_server/server_core.py:910-930 | in every run the results in a session's outbox come in the order their requests were accepted, all before the request the session is held for; failures come as they may |
| AnswerErrands.ResetFailsItsOwn | src/reactor_runtime/model_server/server_core.py:777-789 | the requests a reset fails are all its own session's |
| AnswerErrands.BatchAllThere | src/reactor_runtime/model_server/server_core.py:834-846 | a batch finds every session of it still there, so all of its requests are stepped |
| StepOutputs.BatchIsInserted | src/reactor_runtime/model_server/server_core.py:841-857 | in every run the batch goes into `_pending` as it was taken: one ticket after the other in its order, each request for its session's slot and generation |
| StepOutputs.StepReceivesBatch | src/reactor_runtime/model_server/server_core.py:858-866 | in every run `step()` receives the requests of its batch in ticket order, each with its payload, slot and generation |
| StepOutputs.OutputsLand | src/reactor_runtime/model_server/server_core.py:867-889 | in every run, after `step()` returned, the request at place i of the batch is given output i: a future keeps it pending and sends nothing; a value takes it out and, if its session is open in that generation with room, sends it exactly one answer with the request's order and id and that value; if `step()` raised, or gave more or fewer, every request fails |
| StepOutputs.OthersGetNothing | src/reactor_runtime/model_server/server_core.py:867-889 | in every run the outputs of a batch send nothing to a session with no request in it |
| StepOutputs.FutureLands | src/reactor_runtime/model_server/server_core.py:891-930 | what a future gives goes to the request it was returned for, and to no other session |
| StepOutputs.ResultsAreTheModels | src/reactor_runtime/model_server/server_core.py:834-930 | in every run every result in an outbox was given by the model earlier, for that very request: as the output at its place in its batch, or by its future |
| SessionReplies.StepAcceptedExactlyWhen | src/reactor_runtime/model_server/server_core.py:486-512 | in every run a step is accepted if and only if the server serves, its session is open and not being reset, and has no request queued, taken or running; it then waits last, as it was sent; otherwise its session is told it failed and nothing else changes |
| SessionReplies.ResetMarks | src/reactor_runtime/model_server/server_core.py:537-545 | a serving server queues a reset and refuses the session's steps from then on; one that no longer serves fails it |
| SessionReplies.MarkStays | src/reactor_runtime/model_server/server_core.py:547-549 | over all steps of all threads, the mark of a reset goes exactly when a reset of that session is settled: its reopening ended, it was refused, it found its session no longer open, or its session is forgotten |
| SessionReplies.ResetRefusesSteps | src/reactor_runtime/model_server/server_core.py:486-549 | over every run, no step of a session is accepted between the reset a serving server takes from it and the moment it is settled |
| SessionReplies.LinkTakenExactlyWhen | src/reactor_runtime/model_server/server_core.py:387-412 | in every run a link is taken if and only if the server serves and fewer than `max_sessions` connections are being opened |
| SessionReplies.GreetingLeadsTo | src/reactor_runtime/model_server/server_core.py:441-472 | in every run a first message leads to an opening if and only if it is a hello for one of the server's slots and the server serves; another protocol or no such slot is refused, and what is no hello is not answered |
| SessionReplies.OpeningEnds | src/reactor_runtime/model_server/server_core.py:700-744 | in every run a session whose opening the model took becomes open in its slot while the server serves, and is undone otherwise; one whose opening raised is refused and closed; either way it no longer counts as opening |
| SessionReplies.OpeningUndone | src/reactor_runtime/model_server/server_core.py:722-736 | in every run an opening the model took while the server began to stop is undone: the model closes that generation and the link is closed after what was sent |
| SessionReplies.OpeningIsShut | src/reactor_runtime/model_server/server_core.py:336-369 | once the server ends, a connection still being opened is closed after what was sent, and no other is touched |
| SessionReplies.ToldGenerationIsOpen | src/reactor_runtime/model_server/server_core.py:737-822 | in every run the generation a session is told, in its welcome and after each reset, is the one the model has open for its slot at that moment |
| SessionReplies.FailedResetCloses | src/reactor_runtime/model_server/server_core.py:805-822 | in every run a session that could not be opened again after a reset is told so and closed, and the model has nothing open for its slot and is not asked to close it |
| SessionReplies.EndingIsQueued | src/reactor_runtime/model_server/server_core.py:414-434 | the end of a reader thread queues that its session leaves |
| SessionReplies.WritingTakesNext | src/reactor_runtime/model_server/connection.py:134-158 | the writer takes an outbox in order, one message at a time, up to the flush that ends it |
| SessionReplies.BreakingIsMarked | src/reactor_runtime/model_server/connection.py:134-158 | a link that breaks is marked, and nothing queued before is changed |
| SessionReplies.LeavingCloses | src/reactor_runtime/model_server/server_core.py:746-775 | in every run the whole of a leave: nothing of the session is queued or runs for it any more, the model closes exactly its generation, its connection is shut and in no table, and a flush is queued last |
| SessionReplies.FailsTheOverdue | src/reactor_runtime/model_server/server_core.py:645-657 | in every run a turn marks and fails every running request that is awaited and past its timeout, and leaves every other one as it is |
| SessionReplies.FailsTheExpired | src/reactor_runtime/model_server/server_core.py:628-643 | a turn is to fail every request that expired in the queue and leaves none of them there, and is to run a batch exactly if it took one |
| SessionReplies.OwedIsTold | src/reactor_runtime/model_server/server_core.py:618-641 | a request that is to be failed is: one failure, under its id, to its own session, if its link takes it and, for one that expired in the queue, the session is still open |
| SessionReplies.DroppedIsTold | src/reactor_runtime/model_server/server_core.py:787-789 | each request a reset drops is failed under its id before the model closes the generation |
| SessionReplies.RefusedResetIsTold | src/reactor_runtime/model_server/server_core.py:371-385 | a reset refused while the server stops is told so, and no longer marks its session |
| SessionReplies.TurnTakesEvents | src/reactor_runtime/model_server/server_core.py:587-643 | a turn takes every event in order, to do it while serving and to refuse it while draining |
| SessionReplies.EndsExactlyWhen | src/reactor_runtime/model_server/server_core.py:587-600 | the step thread ends if and only if the server stopped, or drains and its deadline passed or nothing that runs is awaited |
| SessionReplies.DrainDeadlineStays | src/reactor_runtime/model_server/server_core.py:252-276 | over every run, the deadline a serving server is given when it drains stays its deadline, and it never serves again |
| StepWaits.SleepsWhenIdle | src/reactor_runtime/model_server/server_core.py:601-617 | the step thread sleeps exactly when its turn left it nothing to do and it has not ended |
| StepWaits.NeverSleepsPast | src/reactor_runtime/model_server/server_core.py:601-668 | it never sleeps past a running request's timeout, the policy's wake time or the end of the drain, and nothing is overdue while it sleeps |
| StepWaits.SleepsAsLongAsItMay | src/reactor_runtime/model_server/server_core.py:601-668 | a sleep ends with the idle wait, at the policy's wake time, at the end of the drain, or at the timeout of a running request |
| StepWaits.NextWake | src/reactor_runtime/model_server/server_core.py:659-668 | the result is at most the wait asked for and at most the time left of every running request with a timeout, and is one of them |
| StepWaits.TurnNeverHoldsBack | src/reactor_runtime/model_server/server_core.py:609-613 | in every run the step thread's turn holds no batch back once `max_batch` requests wait in time, or every open session has one waiting in time or running |
| ModelServers.ModelServerCore.Answer | src/reactor_runtime/model_server/server_core.py:564-569 | queues a message as the state machine's post does, a full outbox included |
| ModelServers.ModelServerCore.Take | src/reactor_runtime/model_server/server_core.py:486-512 | refuses or queues a step exactly as the state machine's `TakeStep`; nothing else changes |
| ModelServers.ModelServerCore.MarkCancelled | src/reactor_runtime/model_server/server_core.py:524-533 | the loop marks exactly the session's awaited running requests of that id |
| ModelServers.ModelServerCore.CancelRequest | src/reactor_runtime/model_server/server_core.py:514-535 | withdraws a waiting request, or else marks a running one, as `TakeCancel` does |
| ModelServers.ModelServerCore.TakeResetMessage | src/reactor_runtime/model_server/server_core.py:537-545 | queues a reset, or refuses it once the server stops |
| ModelServers.ModelServerCore.MarkOverdue | src/reactor_runtime/model_server/server_core.py:645-657 | the loop marks and lists exactly the running requests whose timeout passed |
| ModelServers.ModelServerCore.ExpireRunning | src/reactor_runtime/model_server/server_core.py:601-602 | marks them and takes the events, in one region |
| ModelServers.ModelServerCore.CompleteRequest | src/reactor_runtime/model_server/server_core.py:910-930 | removes a pending request, answers it if its session still waits in that generation, and frees its session unless it was detached |
| ModelServers.ModelServerCore.RemovePending | src/reactor_runtime/model_server/server_core.py:912-929 | the table, the busy set and the ledger change as `Complete` says |
| ModelServers.ModelServerCore.AnswerAccepted | src/reactor_runtime/model_server/server_core.py:914-920 | posts one answer and records it as the request's |
| ModelServers.ModelServerCore.TakeAllOutputs | src/reactor_runtime/model_server/server_core.py:863-887 | the loop over `step()`'s outputs registers each future and completes each value, skipping requests no longer pending |
| ModelServers.ModelServerCore.DropPending | src/reactor_runtime/model_server/server_core.py:932-946 | the loop detaches exactly the session's requests and lists the ones still to be answered |
| ModelServers.ModelServerCore.ReleaseSession | src/reactor_runtime/model_server/server_core.py:783-786 | queue, busy set and table let go of one session, and what it is owed is listed in order |
| ModelServers.ModelServerCore.BeginReset | src/reactor_runtime/model_server/server_core.py:777-789 | the first region of a reset, as `StartReset` |
| ModelServers.ModelServerCore.Unregister | src/reactor_runtime/model_server/server_core.py:772-774 | takes a connection out of `_connections`, and out of `_by_slot` only if the slot is still its own |
| ModelServers.ModelServerCore.ForgetConnection | src/reactor_runtime/model_server/server_core.py:765-775 | drops everything held for a connection that leaves, as `ForgetRegion` |
| ModelServers.RegisteredAgrees | src/reactor_runtime/model_server/server_core.py:717-723 | entering an opening connection whose slot is free keeps `_connections`, `_by_slot` and the open connections in agreement: each gains it and nothing else, and no other connection changes |
| ModelServers.ModelServerCore.EnterConnection | src/reactor_runtime/model_server/server_core.py:717-735 | ends an open: entered while serving, otherwise left to be closed again in the model |
| ModelServers.ModelServerCore.NextGeneration | src/reactor_runtime/model_server/server_core.py:824-826 | a connection gets its slot's next generation, and the model call is logged |
| ModelServers.ModelServerCore.DropAll | src/reactor_runtime/model_server/server_core.py:345-348 | the loop drops every open connection's queue, and lists what it dropped in order |
| ModelServers.ModelServerCore.ListRunning | src/reactor_runtime/model_server/server_core.py:349-357 | the sessions held are exactly those of requests not detached, the requests answered exactly the awaited ones |
| ModelServers.ModelServerCore.AnswerInFlight | src/reactor_runtime/model_server/server_core.py:336-363 | takes every request out of the tables and lists the ones to fail |
| SessionSteps.NextPasses | src/reactor_runtime/model_server/server_core.py:387-951 | whatever any thread does, one session's resets on their way are kept or answered one by one, its generation moves only with its own reset, and its outbox only grows |
| EndToEnd.ThenKeeps | src/reactor_runtime/model_server/client.py:259-441 | every event of the client, the link or the server keeps the invariant of the two together |
| EndToEnd.AgreedWhenUsable | src/reactor_runtime/model_server/client.py:297-331 | whenever no reset is required of the client, it and the server agree on the generation and no reset is on its way, queued or being applied, also after resets that timed out and replies that came late |
| EndToEnd.StepReturnsItsOwn | src/reactor_runtime/model_server/client.py:259-295 | what `step()` returns is the answer to the one request the server accepted under its id, computed in the generation of the client's last `ResetDone` |
| EndToEndRun.StepCanReturn | src/reactor_runtime/model_server/client.py:259-331 | for every payload and every output there is a run in which a client connects, resets, steps with that payload and is given that output |
| ClientCalls.StepReturnsTheModelsOutput | src/reactor_runtime/model_server/client.py:280-295 | over every history, what a step returns was given by the model, earlier in that history, for the one request the server accepted from this session under the step's id |
| ClientCalls.MayStepExactlyWhen | src/reactor_runtime/model_server/client.py:280-331 | over every history, a client may step if and only if the last reset it began was answered by its own `ResetDone` and that call ended with it |
| ClientCalls.ResetLetsStep | src/reactor_runtime/model_server/client.py:320-331 | a reset answered by its own `ResetDone` leaves the client in that generation, free to step |
| ClientCalls.OtherEndsChangeNothing | src/reactor_runtime/model_server/client.py:391-412 | every other end of a call leaves the generation, and whether a reset is required, as they were |
| ClientCalls.ReplyEndsStep | src/reactor_runtime/model_server/client.py:289-295 | a step returns the result that answers it, and raises for a failure |
| ClientCalls.OthersAreDropped | src/reactor_runtime/model_server/client.py:414-423 | no other message touches the call that waits |
| ClientCalls.StepIsSent | src/reactor_runtime/model_server/client.py:280-290 | a usable client that needs no reset puts exactly its step on the channel, under a new id, with its payload, and waits |
| ClientCalls.ResetIsSent | src/reactor_runtime/model_server/client.py:310-319 | a usable client puts its reset on the channel, and no step may follow until it completed |
| ClientCalls.GivingUpCancels | src/reactor_runtime/model_server/client.py:378-412 | a step that gives up puts its cancel on the channel, and a reset none |
| ClientCalls.NothingSent | src/reactor_runtime/model_server/client.py:280-319 | nothing is sent on a link that ended, and no step where a reset is required |
| ClientCalls.StepArrives | src/reactor_runtime/model_server/server_core.py:486-512 | in every history a step the server takes waits there as the client sent it: its id, its payload, and its timeout from its arrival, or none |
| ClientCalls.LinkEndsExactlyWhen | src/reactor_runtime/model_server/client.py:338-346 | a link ends exactly when it is lost or closed, a send finds it gone, or its hello is answered by anything but a welcome; it is usable only from a welcome, whose generation it takes |
| ClientCalls.EndedForGood | src/reactor_runtime/model_server/client.py:355-376 | over every history a link that ended stays so and nothing is put on its channel any more |
| ResultIds.ResultsById | src/reactor_runtime/model_server/client.py:288-294 | whatever is refused or comes late, the results sent to a session carry rising request ids |
| ModelClients.ModelClient.Send | src/reactor_runtime/model_server/client.py:365-376 | sends, raises before anything was sent, or loses the link |
| ModelClients.ModelClient.StartStep | src/reactor_runtime/model_server/client.py:280-289 | a step up to its wait: the new state and whether a message was sent |
| ModelClients.ModelClient.StartReset | src/reactor_runtime/model_server/client.py:317-323 | a reset up to its wait; no step from here on until it completed |
| ModelClients.ModelClient.Read | src/reactor_runtime/model_server/client.py:410-419 | keeps the answer to the call that waits and drops every other message |
| ModelClients.ModelClient.EndCall | src/reactor_runtime/model_server/client.py:391-408 | the call returns or raises from its own reply, and a reset's generation is kept |
| ModelClients.ModelClient.GiveUp | src/reactor_runtime/model_server/client.py:290-292 | the call ends without a reply, and a step is cancelled |
| Slots.SpansTile | src/reactor_runtime/ipc/slot.py:121-143 | the spans of one call tile what it wrote, each beginning where the one before ends |
| Slots.CutsBack | src/reactor_runtime/ipc/slot.py:200-213 | every span gives its own buffer back, whatever else is in the block |
| Slots.SharedSlot.Begin | src/reactor_runtime/ipc/slot.py:121-123 | a new call has written nothing |
| Slots.GrownFits | src/reactor_runtime/ipc/slot.py:150-155 | a larger block holds what is needed, and twice what the old one held unless its limit is less; it is never above its limit |
| Slots.SharedSlot.Grow | src/reactor_runtime/ipc/slot.py:150-173 | the call's bytes move into a block of the size the rule gives, or of exactly what is needed when that has no room; refused exactly past the limit |
| Slots.SharedSlot.Write | src/reactor_runtime/ipc/slot.py:125-143 | appends one buffer and returns its span, the earlier bytes kept across growth; refused exactly past the limit, with the exact size, and then nothing of the call changes |
| Payloads.UnpacksWhatWasPacked | src/reactor_runtime/ipc/payload.py:68-80 | an object is rebuilt from its header and any block that starts with its bytes |
| Payloads.UnpacksInline | src/reactor_runtime/ipc/payload.py:46-47 | and with no slot |
| Payloads.Pack | src/reactor_runtime/ipc/payload.py:30-67 | past the limit packing is refused with the buffers' exact total, and otherwise only for want of memory for a buffer within the limit; what is packed is the buffers laid end to end |
| Payloads.SlotReader.Attach | src/reactor_runtime/ipc/slot.py:188-198 | maps the block a header names; one already mapped stays, even once its file is gone |
| Payloads.SlotReader.Unpack | src/reactor_runtime/ipc/payload.py:70-80 | copies the spans out of the mapped block, or reports it gone |
| Payloads.RoundTrip | src/reactor_runtime/ipc/payload.py:30-80 | what is packed into a slot of any size and limit, growing as it goes, is what a reader unpacks |
| ShmLinks.DoKeeps | src/reactor_runtime/model_server/shm_link.py:210-313 | every send, cancel, receive, result, refusal and release keeps the invariant of the link, refusals at any time |
| ShmLinks.PayloadsIntact | src/reactor_runtime/model_server/shm_link.py:210-313 | with headers read arbitrarily late, every step the server reads is byte for byte what its session wrote, unless it was given up and its cancel not sent; every step skipped had been given up; every result returned holds the bytes written for it |
| ShmReplies.HearingReplies | src/reactor_runtime/model_server/shm_link.py:290-313 | in every run, reading the result of the call that waits makes its reply hold exactly what was computed for it; a failure of that call makes it fail; any other answer changes nothing |
| ShmReplies.ReturningGives | src/reactor_runtime/model_server/client.py:391-418 | in every run a call whose reply is a result returns exactly that result, and one that failed returns none |
| ShmReplies.StepComesBack | src/reactor_runtime/model_server/shm_link.py:248-313 | from every reachable link with nothing under way, for every object and result that fit, a run leads to the object being read whole and the result being returned whole |
| ShmReplies.CancelLeaves | src/reactor_runtime/model_server/shm_link.py:248-266 | in every run a cancel that is sent goes last, leaves the session a blank block under a name never used before, and keeps the cancelled step's block as it was; one that is not sent leaves the session its block |
| ShmReplies.ReceivingReads | src/reactor_runtime/model_server/shm_link.py:284-313 | a step is read exactly if it has no arrays, its block is still mapped, or its file is there, from what is behind that name; otherwise it is skipped |
| ShmLinks.IntactWhenCancelsAreSent | src/reactor_runtime/model_server/client.py:281-295 | while every cancel could be sent, nothing is read wrong and only cancelled steps are skipped |
| ShmLinks.UnsentCancelCorrupts | src/reactor_runtime/model_server/client.py:378-389 | a run in which the cancel is not sent and the step is read wrong |
| ShmUnsent.UnsentCancelCanCorrupt | src/reactor_runtime/model_server/shm_link.py:229-266 | from every reachable link, a step given up without its cancel and still unread in the block in use can be read as something else than what was written |
| ShmUnsent.WrongExactlyIfUnread | src/reactor_runtime/model_server/client.py:281-292 | right after a step is given up and its cancel not sent, some continuation reads it wrong if and only if its header is unread and it has bytes |
| ShmUnsent.ReadStaysIntact | src/reactor_runtime/model_server/shm_link.py:268-313 | a step read before it was given up, or whose cancel was sent, was read intact and stays so in every later state |
| ShmUnsent.ReadsBackOnlyWhole | src/reactor_runtime/ipc/payload.py:70-80 | an object is rebuilt from a block only if the block starts with its bytes, the converse of `UnpacksWhatWasPacked` |
| ShmLinkEnds.LinkEnds.SendCancel | src/reactor_runtime/model_server/shm_link.py:248-266 | retires the block in use and moves to a fresh one exactly when the replacement could be allocated and the cancel sent |
| ShmLinkEnds.LinkEnds.Receive | src/reactor_runtime/model_server/shm_link.py:268-313 | the loop skips the steps whose block is gone and gives the first message that can be read |
| ShmDirectory.WholePagesIsLeast | src/reactor_runtime/core/service.py:271-272 | the least multiple of the page that holds the size |
| ShmDirectory.NextKeeps | src/reactor_runtime/model_server/shm_link.py:248-458 | every move of a session, a set-up or a release, in any interleaving, keeps at most two request blocks, all of the newest link, and no file but of a link that took the slot |
| ShmDirectory.SessionEnds | src/reactor_runtime/model_server/shm_link.py:315-348 | a session that quits unlinks its own request blocks; one that dies leaves every file |
| ShmBound.LeftByHistory | src/reactor_runtime/model_server/shm_link.py:324-348 | over every run, the links that still have an output block to release without holding the slot are exactly those closed while they were set up, and those that have a probe to drop without holding it exactly those released, or replaced, before they recorded it |
| ShmBound.FitsExactlyWhen | src/reactor_runtime/model_server/shm_link.py:374-458 | over every run there are at most two request blocks; a file left behind is of a link closed during set-up, of one that lost the slot before it recorded its probe, or taken and not unlinked; the files fit `shm_slot_bytes` for all sizes if and only if no output block left behind is beside another and there are three files at most; with nothing left behind, unless a probe and the output block are beside two request blocks |
| ShmBound.FitsByCounts | src/reactor_runtime/core/service.py:259-272 | the files fit for all sizes if and only if there is one output block at most and three files at most |
| ShmBound.FitsUnlessProbed | src/reactor_runtime/core/service.py:259-272 | with one output block at most, and a probe only with it, the sizes do not matter: the files fit exactly unless a probe is beside two request blocks |
| ShmBound.FitsForGoodExactlyWhen | src/reactor_runtime/core/service.py:259-268 | from any reachable state, whatever came before, all that orderly set-ups lead to fits for all sizes if and only if no link but the holder has a file to release, and what the set-up and the session still create fits beside what is there |
| ShmBound.FitsInOrder | src/reactor_runtime/core/service.py:259-268 | when every set-up is orderly, after every older one is recorded and every release done, and not released meanwhile, the directory never holds more than `shm_slot_bytes`, and no probe once a request block is there |
| ShmBound.RacesOverfill | src/reactor_runtime/model_server/shm_link.py:424-458 | a link set up late beside an open session, or before another recorded its probe, or before a release is done, or released while it is set up, always leaves a state from which the bound is passed |
| ShmBound.LateSetUpOverfills | src/reactor_runtime/model_server/shm_link.py:424-452 | a run in which a late set-up passes the bound |
| ShmBound.ClosedSetUpOverfills | src/reactor_runtime/model_server/shm_link.py:324-348 | a run in which the output block of a link closed during set-up, beside the next link's blocks, passes the bound |
| ShmBound.EarlyReleaseOverfills | src/reactor_runtime/model_server/shm_link.py:424-451 | a run, every link in order and none closed, in which a probe not recorded yet stays beside the next link's blocks and passes the bound |
| ShmBound.SlowReleaseOverfills | src/reactor_runtime/model_server/shm_link.py:332-344 | a run in which a release has taken blocks and not unlinked them when the next link is set up, and they pass the bound |
| Lockstep.NextKeeps | src/reactor_runtime/distributed/runner.py:172-289 | every step of the runner and of every rank keeps the group's invariant |
| Lockstep.IdleMeansEmpty | src/reactor_runtime/distributed/runner.py:258-289 | whenever the runner is healthy and idle every queue is empty and every rank waits |
| Lockstep.CallCollectsItsOwn | src/reactor_runtime/distributed/runner.py:276-289 | in any interleaving the messages a call collects are one per rank, all for that call |
| Lockstep.CallsKeepTheirData | src/reactor_runtime/distributed/runner.py:172-189 | through blocks every call overwrites, what a rank reads in the k-th call is the k-th input; of a call that returns, every rank read it, and the result is what rank 0 computed for it |
| Lockstep.DecidesByPolicy | src/reactor_runtime/distributed/runner.py:291-315 | a call returns exactly when no rank failed, raises an error exactly when every rank failed with that one, and otherwise its ranks are out of step |
| Lockstep.HealthyAfterCall | src/reactor_runtime/distributed/runner.py:291-315 | in every run, after a call has all its messages the group is healthy if and only if no rank failed or every rank failed with one same error, and the outcome is recorded under the call's number |
| Lockstep.AnswersAreTheRanks | src/reactor_runtime/distributed/rank.py:114-127 | over every run every answer was given by the rank it names, while it held the request of the call it names, with the error it raised or none |
| Lockstep.DecidesWhatRanksGave | src/reactor_runtime/distributed/runner.py:291-315 | over every run a call raises an error only if every rank failed its request with that one, and returns only if every rank answered it |
| Lockstep.UnhealthyForGood | src/reactor_runtime/distributed/runner.py:258-272 | over every run a group that is not healthy stays so and starts no further call |
| Lockstep.InterruptedIsUnusable | src/reactor_runtime/distributed/runner.py:276-289 | a call that is interrupted leaves the group unusable |
| Lockstep.HealthyCanCall | src/reactor_runtime/distributed/runner.py:258-272 | in every run a healthy group that is not in a call can start one |
| Lockstep.CallCanReturn | src/reactor_runtime/distributed/runner.py:172-194 | for every input and every result that rank 0 computes there is a run in which the call returns that result |
| Runners.DistributedRunner.BroadcastRequest | src/reactor_runtime/distributed/runner.py:272-274 | the loop puts the request at the end of every rank's queue |
| Runners.DistributedRunner.CollectAnswers | src/reactor_runtime/distributed/runner.py:276-341 | the loop takes messages in the order they came, losing none; the call is complete exactly with one per rank, else its time was up or a dead rank had not answered after everything that arrived was taken, and then the group is unusable |
| Runners.DistributedRunner.Unanswered | src/reactor_runtime/distributed/runner.py:333-336 | gives a dead rank that has not answered exactly when there is one |
| Runners.RankLoop | src/reactor_runtime/distributed/rank.py:114-127 | each request before a shutdown is answered once, in order, under its own call, with the worker's error if it raised, and with its result's header exactly if the rank is 0, the request a `generate()` and nothing raised |
| EventStreams.YieldsInOrder | src/reactor_runtime/event_stream.py:157-192 | a subscriber that resumes at or below the current number yields strictly increasing numbers, each with its own event, and its queue is always a run of consecutive events up to the last one emitted |
| EventStreams.GaplessUnlessOverflowed | src/reactor_runtime/event_stream.py:119-192 | it gets every event after the one it resumed from if and only if history still held the next one when it subscribed and its queue never overflowed |
| EventStreams.FoldCatchesUp | src/reactor_runtime/event_stream.py:194-215 | a snapshot folded with the events that follow is the later snapshot |
| EventStreams.ResumedFromSnapshot | src/reactor_runtime/event_stream.py:157-215 | a subscriber resumed from a snapshot, with nothing overflowed, folds what it got into the journal's own snapshot |
| EventStreams.SnapshotCounts | src/reactor_runtime/event_stream.py:194-215 | in every run a snapshot counts the largest surplus of opened over closed connections that any stretch of events up to the last one left; when no prefix closed more than it opened, that is the opened minus the closed |
| EventStreams.SnapshotCountsEach | src/reactor_runtime/event_stream.py:202-215 | in every run an opened connection raises the count by one, a closed one lowers it by one or leaves it at none, and everything else leaves it alone |
| EventStreams.SnapshotState | src/reactor_runtime/event_stream.py:194-211 | in every run a snapshot's state is where the last event went, none before the first, and it covers every event |
| EventStreams.SubscriberStarts | src/reactor_runtime/event_stream.py:157-174 | in every run a new subscriber has coming exactly the events history still holds above the number it resumes after, in order, and with no such number only those emitted from then on |
| EventStreams.YieldsNext | src/reactor_runtime/event_stream.py:176-192 | a subscriber takes what it has coming one item at a time, in order, none lost, as long as there is any; nothing else changes |
| EventStreams.LeavingForgets | src/reactor_runtime/event_stream.py:191-192 | a subscriber that leaves is forgotten and nothing else changes |
| EventStreams.LogIsWhatWasEmitted | src/reactor_runtime/event_stream.py:119-136 | the journal numbers the emitted events in the order they were emitted |
| EventJournals.EventStream.Emit | src/reactor_runtime/event_stream.py:119-138 | the event is numbered, kept among the newest, and offered to every subscriber; the state is where it went, and the count goes up by one at an opened connection and down by one, not below none, at a closed one |
| EventJournals.EventStream.Deliver | src/reactor_runtime/event_stream.py:137-138 | the loop offers it to every subscriber's queue and touches no backlog |
| EventJournals.EventStream.Subscribe | src/reactor_runtime/event_stream.py:157-174 | a new subscriber has every retained event after the number asked for, and an empty queue |
| EventJournals.EventStream.Snapshot | src/reactor_runtime/event_stream.py:194-200 | the state, the count and the last number, together |
| EventJournals.Consumer.Receive | src/reactor_runtime/event_stream.py:140-155 | a full queue loses its oldest item and always gets the newest |
| EventJournals.Consumer.Next | src/reactor_runtime/event_stream.py:186-192 | the backlog in order, and then the queue |
| Services.TopologicalOrder | src/reactor_runtime/service.py:295-326 | terminates on every graph; fails if and only if a dependency is unknown or there is a cycle; otherwise each component comes once, after all it depends on |
| Services.OrderMeansAcyclic | src/reactor_runtime/service.py:295-304 | a graph that has such an order has no cycle and no unknown dependency |
| Services.Sorter.Visit | src/reactor_runtime/service.py:309-322 | after a visit the component and all it depends on are ordered; it fails only on an unknown name or a cycle |
| Services.Sorter.VisitEach | src/reactor_runtime/service.py:318-319 | the same for every dependency of one component |
| Services.Sorter.Place | src/reactor_runtime/service.py:320-322 | a component whose dependencies are ordered joins the order |
| Services.StartAll | src/reactor_runtime/service.py:158-167 | the components started are those up to the first that fails or the first shutdown request |
| Services.StartedMeans | src/reactor_runtime/service.py:158-167 | none of the components that came up failed, no shutdown was requested before the last of them, and the next one failed or a shutdown had been requested |
| Services.DrainAll | src/reactor_runtime/service.py:178-183 | the loop drains in order up to the first drain that raises past `Exception`, others that fail making no difference |
| Services.StopAll | src/reactor_runtime/service.py:184-189 | so do the stops |
| Services.Run | src/reactor_runtime/service.py:152-189 | the exact sequence of start, drain and stop calls, for every way each of them may end |
| Services.EachDrainedThenStopped | src/reactor_runtime/service.py:172-189 | every component that started is drained once and stopped once if and only if no drain raises past `Exception` and no stop but the last one does |
| Services.CutAtEscape | src/reactor_runtime/service.py:172-189 | otherwise the calls are those up to the first that raises so, and none after it |
| Services.WindDownAt | src/reactor_runtime/service.py:173-189 | the drains come in start order, once each, and then the stops in start order, once each |
| Framing.NumberOfDigits | src/reactor_runtime/model_server/protocol.py:281-297 | the header's eight bytes, highest first, give the length back |
| Framing.DigitsAt | src/reactor_runtime/model_server/protocol.py:275-282 | the header is in network order: each byte is that digit of the length to the base 256 |
| Framing.ReceivesFrame | src/reactor_runtime/model_server/protocol.py:275-300 | a frame within the limit is received as sent, whatever follows it |
| Framing.ClosedInsideFrame | src/reactor_runtime/model_server/protocol.py:303-319 | a stream that ends inside a frame gives no part of it |
| Framing.ReceivesAll | src/reactor_runtime/model_server/protocol.py:275-319 | of frames sent back to back and cut anywhere, exactly the whole frames before the cut are received, and then the close |
| Framing.ReceivesWhole | src/reactor_runtime/model_server/protocol.py:275-319 | uncut, all of them |
| Framing.Exactly | src/reactor_runtime/model_server/protocol.py:303-319 | the loop reads exactly n bytes over reads of any size, or reports the close |
| Framing.ReceiveFrame | src/reactor_runtime/model_server/protocol.py:285-300 | over reads of any size, what is received is what the stream holds |
| Framing.SendFrame | src/reactor_runtime/model_server/protocol.py:275-282 | the stream grows by the header and the body |
| Quantities.ReadsExactly | src/reactor_runtime/manifest.py:338-391 | for every string, the verdict is that of exact rational evaluation of the grammar, which has no exponent shortcut, if and only if its exponent is not longer than `int()` converts |
| Quantities.LongExponentRefused | src/reactor_runtime/manifest.py:375 | a string worth a million bytes that is refused for the length of its exponent |
| Quantities.FarBelow | src/reactor_runtime/manifest.py:379-381 | the first shortcut's verdict is that of computing the power |
| Quantities.FarAbove | src/reactor_runtime/manifest.py:382-383 | so is the second one's |
| Quantities.OneReading | src/reactor_runtime/manifest.py:323-326 | every string has at most one reading under the grammar, and it is the one read |
| Quantities.ReadsWhatIsWritten | src/reactor_runtime/manifest.py:323-326 | reading a written quantity gives it back |
| Quantities.WritesWhatIsRead | src/reactor_runtime/manifest.py:323-326 | what is read is written exactly as it was |
| Quantities.SizesInRange | src/reactor_runtime/manifest.py:387-391 | accepted sizes lie in 1..2**63-1, and an integer in that range is accepted as itself |
| Quantities.BinarySuffixesMean | src/reactor_runtime/manifest.py:327-334 | `Ki` to `Ei` are 1024 to its sixth power |
| Quantities.DecimalSuffixesMean | src/reactor_runtime/manifest.py:327-334 | `k` to `E` are a thousand to its sixth power, and `m`, `u`, `n` a thousandth to its third |
| Quantities.WholeNumberWithSuffix | src/reactor_runtime/manifest.py:366-391 | a whole number with a suffix is accepted as that many times what the suffix stands for, if that is whole and in range |
| Quantities.DocumentedExamples | src/reactor_runtime/manifest.py:338-352 | the sizes the documentation gives as examples, and those it refuses |
| TypeSpecs.CheckMeansValid | src/reactor_runtime/core/typespec.py:133-384 | for every type tree and every JSON value, the value passes `check` exactly when it is valid under the rendered schema |
| TypeSpecs.CoerceKeeps | src/reactor_runtime/core/typespec.py:170-348 | a value that passes still does once coerced, and coercing it again changes nothing |
| TypeSpecs.CoerceMeans | src/reactor_runtime/core/typespec.py:170-348 | a value that passes is coerced to the same value in the types the spec asks for: a whole float under an int becomes the equal int, an enum's value the member of that class with that value, and every element, key and null stays in place |
| TypeSpecs.CoerceLeavesTyped | src/reactor_runtime/core/typespec.py:170-348 | a value that has those types already is left exactly as it is |

## Left out

- A future as an object with its own states: it may finish at any time after `step()` returned it, which covers every order of `cancel()`, its callback and the work itself.
- A result the link cannot carry, for which the writer sends a failure instead, is part of `ShmLinks`; end to end, the client reads what the outbox holds.
- A post made just after its region under the condition is taken with the step-thread action it belongs to; a post of a reader thread with that thread's region.
- In the runner's collecting loop the clock is the number of waits the call's time allows; exit codes are left out.
- Exceptions that escape the step loop or a future's callback: the loop is assumed to run to its end, and `_broken`, `health()` and the stuck-work clock are not modelled.
- Session ids and signals in the server, which no branch reads; a step's payload and the model's output for it are opaque numbers, carried from one end to the other. Log lines and metrics are left out everywhere.
- Times are real numbers that never go back; the two clock readings of one turn are separate only in `StepWaits`.
- The hello timeout is a link that breaks or a reader that ends, at any time; waiting for a listener, and the retries of `connect`, are left out.
- In the shared-memory link only results, and the failures sent instead of one the block cannot hold, are taken to come in the order of the steps' ids, as `ResultIds.ResultsById` proves of the server and its client; every other failure may come at any time.
- In a slot's directory a session opens its next link only once its end of the last one is closed or gone; the names of its blocks are the link and the rotation.
- Bytes that a mapping still holds after its file is gone: the bound is stated on the files in the directory, as the source documents it.
- The ranks' start, rendezvous, process group and shutdown; the call number a message carries in `Lockstep` is bookkeeping, which the source's messages do not have.
- Reads past a deadline in framing, and pickling of messages: a frame's body is bytes.
- Component names and error types are numbers, compared only for equality.
- TypeSpecs.CheckMeansValid: sets of literals and enum members hold strings only, since Python's `True == 1` makes the two readings differ on others; upload references, the wording of what `check` reports and building a spec from a dataclass are left out, as are NaN and infinities.
- In the manifest, the other keys and the wording of the refusals; the limit of `int()` is the interpreter's default, and a process that changes it is left out.
- HTTP routes, transports, codecs, the recorder, the session state machine, upload storage and deployment tooling are not part of this model.
