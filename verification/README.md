# CLAO control kernel: a verified model

CLAO drives external coding workers through a durable control loop. This project
models the kernel under `clao/src/loopcore` in Dafny and proves what it is for:
that a worker, a message or a kill is dispatched at most once through any crash,
that a task is finished by evidence only, that a stop or an approval is reported
only when it happened, that scope is not left, and that the parsers and
transformations around it lose nothing.

## How it is laid out

| files | what they hold |
|---|---|
| `OperationStore`, `DispatchProtocol`, `DispatchRuns`, `DispatchBudgets` | the durable operation table; every interleaving of callers, crashes and stops as a state machine; how far a budget can still be charged |
| `ExecutorRules`, `ExecutorAnswers`, `ExecutorProtocol`, `Executor` | the executor's decisions as functions, exactly when each comes out how, their refinement of the state machine, and the object itself |
| `CodexRow`, `CodexRuns`, `CodexApprovals`, `CodexReceipts`, `CodexBackend` | one worker row and its handlers; every run of it in memory and in the store, with its history; its approval responses, and what their history calls for; the backend object over many workers |
| `Contracts`, `ClosedLoop` | states and transition table; the controller of one task |
| `PathScope`, `Glob`, `GlobMeaning`, `FileChanges`, `CommandTokens`, `CommandLayout`, `CommandScope`, `Strings` | the approval policy |
| `LoopBus`, `BusRuns`, `BusBudgets`, `BusAdmission` | the message bus, its concurrent runs, and exactly what it admits |
| `EventObserver`, `ObserverWindows` | the windowed detector, and what it keeps and counts |
| `JsonEscapes`, `SseFraming`, `ConfigTree`, `EffectiveConfig`, `ConfigReading`, `StrictSchema`, `SchemaMeaning` | parsers and transformations |

Code that changes objects or loops over variables is a class or a method proved
against a specification function; the properties are lemmas about those functions
and about whole runs. The outside world is a parameter (replies of a peer, a tree
with links, a clock) or, in the controller, nondeterministic: every external call
there may raise any exception or be the last thing the process does, and every
answer of the Auditor, Planner, Verifier, Git and peer is arbitrary. Python's
exceptions are outcome values passed on with `:-`.

`dafny verify dfyconfig.toml` checks everything.

## What the code does not promise

Nine statements one might expect are false of the code. Each has a concrete input,
and the condition under which the code does keep the promise.

- The path gate resolves the workspace a second time; when that read fails no path
  is compared, and a change outside the scope can pass the gate
  (`ClosedLoop.UnauditedPass`, exact condition `ClosedLoop.DoneIsAuditedIff`). Only
  an adapter whose refusal is an `AOError` can do this
  (`clao/src/loopcore/closed_loop.py:1354-1357`); the local backend's errors escape.
- The admission check does not bound a budget when a second corrective action is
  admitted before the first is resolved
  (`DispatchBudgets.CounterCheckIsNotEnough`, exact conditions
  `DispatchBudgets.BudgetIsSafeIff` and `DispatchBudgets.AdmissionIsSafeIff`).
- A worker can be reported stopped although a later turn was announced, a request
  asked or a command reported running: when the handler of that message raised, which
  kills the reader and leaves a row at rest as it was
  (`CodexRuns.RefusedTurnLooksStopped`, exact condition `CodexRuns.OrderlyStopIff`;
  with a live reader the answer is right).
- A worker can be reported stopped after a crash although a later turn was
  acknowledged or announced, when that was not saved
  (`CodexRuns.UnsavedTurnLooksStopped`, exact condition
  `CodexRuns.StoppedAfterRestartIff`).
- A turn that ended can be unended again by a crash, when its end was not saved
  (`CodexRuns.UnsavedEndIsForgotten`, exact condition
  `CodexRuns.EndedIsNotRevivedIff`).
- A request can be reported EXPIRED after a response to it was written: when the
  process dies between write and save, or when the engine asks it twice under one
  identity (`CodexApprovals.UnsavedWriteLooksUnanswered`,
  `CodexApprovals.ReaskedRequestLooksUnanswered`, exact condition
  `CodexApprovals.ExpiredIsNeverWrittenIff`; `CodexApprovals.OnlyHistoryTells` shows
  that nothing stored decides it).
- Reports redirected to another thread's issue take that thread beyond its hop
  limit (`BusBudgets.RedirectedMessagesExceedTheLimit`, exact conditions
  `BusBudgets.BeyondLimitIff` and `BusBudgets.HopsStayWithinIff`).
- A dot-dot taken at a file is accepted although the system refuses it
  (`PathScope.ParentOfAFileIsAccepted`, exact condition `PathScope.ResolvableIff`);
  the accepted target is still contained.
- Strengthening a schema drops requirements that are not declared as properties
  (`SchemaMeaning.UndeclaredRequirementIsDropped`, exact condition
  `SchemaMeaning.StrengthensIff`), weakens it under `not`
  (`SchemaMeaning.NegationIsWeakened`, exact condition
  `SchemaMeaning.NegationStrengthensIff`), and is not idempotent on data that looks like
  a schema (`StrictSchema.MisreadDataGrows`, exact condition
  `StrictSchema.StrictIsIdempotentIff`).

Where comments and code differ the model follows the code: the comment at
`clao/src/loopcore/closed_loop.py:1109-1114` says a dry run executes no gate
command, but the audit's evidence capture (944-964) runs them in any mode.

## Model

| member | source | states |
|---|---|---|
| OperationStore.StateStore.EnsureOperation | clao/src/loopcore/state_store.py:324-342 | an intent is inserted only if absent and starts NOT_STARTED with no attempt; a different content under the same id is reported and changes nothing |
| OperationStore.StateStore.OperationClaim | clao/src/loopcore/state_store.py:344-368 | the claim wins exactly when the row is dispatchable (own status, attempts, no other unresolved operation of the owner, mission not stopped) and then moves it to IN_FLIGHT with one more attempt; otherwise nothing changes |
| OperationStore.StateStore.OperationObserve | clao/src/loopcore/state_store.py:370-399 | status, evidence, result and counters are committed together; an acknowledged spawn or send never changes again |
| OperationStore.StateStore.MarkActionExecuted | clao/src/loopcore/state_store.py:707-714 | the first recorded result of an action wins |
| OperationStore.ObserveKeepsBalance | clao/src/loopcore/state_store.py:370-399 | after any observation every counter still equals the number of operations charged to it |
| OperationStore.ObserveFrame | clao/src/loopcore/state_store.py:370-399 | an observation touches one row, never its kind, owner, target or request |
| OperationStore.EvidenceIsKept | clao/src/loopcore/state_store.py:370-399 | facts noted of an operation are kept in order, the latest last, none twice in a row |
| DispatchProtocol.AtMostOnceDispatch | clao/src/loopcore/action_executor.py:229-278 | for every interleaving of callers, lost replies, retries, reconciliations and crashes: at most one process per operation id, attempts within the limit, and an operation that has a process is never NOT_STARTED again |
| DispatchProtocol.OnlyProvenRefusalReopens | clao/src/loopcore/action_executor.py:251-255 | the only step back to NOT_STARTED is the report of a process that could not be created, by the call that tried, with attempts left |
| DispatchProtocol.CreationNeedsOwnClaim | clao/src/loopcore/action_executor.py:229-245 | a process comes into being only in the call whose claim moved the row out of NOT_STARTED; rows found IN_FLIGHT or UNKNOWN are only read |
| DispatchProtocol.SuccessIsFinal | clao/src/loopcore/action_executor.py:204-208 | an acknowledged spawn or send keeps its row unchanged in every continuation |
| DispatchProtocol.ChargesAreConserved | clao/src/loopcore/action_executor.py:204-208 | in every reachable state a success counter equals the number of SUCCEEDED operations that name it: each is charged exactly once |
| DispatchProtocol.NoDispatchAfterStop | clao/src/loopcore/state_store.py:344-368 | once a mission stop is durable and no claim is in hand, no spawn or send of that mission is dispatched in any continuation |
| DispatchProtocol.IdentityIsFixed | clao/src/loopcore/state_store.py:324-342 | kind, owner, target and request of an operation never change |
| DispatchProtocol.RunKeepsInv | clao/src/loopcore/action_executor.py:229-278 | every step of every call, and a crash at any step, keeps the protocol invariant |
| DispatchRuns.StopSuccessIsFresh | clao/src/loopcore/action_executor.py:650-676 | whenever a stop call returns success the peer's termination was read and recorded while that call was running; a stored success alone never suffices |
| DispatchRuns.DispatchesIff | clao/src/loopcore/state_store.py:344-368 | a call that found its operation not started gets to dispatch it if and only if it still is so with attempts left and, unless it is a stop, its owner is neither stopped nor finished and no other operation of that owner is unresolved, written and closed approval responses aside |
| DispatchRuns.FirstResultIsKept | clao/src/loopcore/state_store.py:707-714 | the first recorded result of a planner action stays through every interleaving and crash |
| DispatchRuns.StopIsKept | clao/src/loopcore/state_store.py:344-368 | a requested stop stays on record in every continuation and does not mark the mission finished |
| DispatchBudgets.BudgetIsSafeIff | clao/src/loopcore/action_executor.py:542-549 | a counter stays within its maximum in every continuation without a further admission if and only if the operations that have charged it or still can are no more than the maximum |
| DispatchBudgets.BudgetIsSafeInStoreIff | clao/src/loopcore/action_executor.py:542-549 | with nobody in a call that is read off the store: rows naming the key that are SUCCEEDED, IN_FLIGHT, UNKNOWN, or NOT_STARTED with an owner that is not stopped; the mission-wide replan counter is one such key |
| DispatchBudgets.AdmissionIsSafeIff | clao/src/loopcore/action_executor.py:542-549 | what the admission check would have to look at: the budget is safe after an admission if and only if those operations leave room for one more, unless the new one's owner is stopped |
| DispatchBudgets.BudgetHolds | clao/src/loopcore/action_executor.py:542-549 | a budget counter never passes its maximum in any run in which each admitted corrective action finds the earlier ones resolved |
| DispatchBudgets.BudgetHoldsWithRoom | clao/src/loopcore/action_executor.py:542-549 | more generally, the counter is bounded in any run whose admissions count outstanding operations as well as charged ones |
| DispatchBudgets.CounterCheckIsNotEnough | clao/src/loopcore/action_executor.py:542-549 | a reachable run in which the admission check alone lets a counter with maximum 1 reach 2: two intents admitted before either is resolved |
| ExecutorRules.ReplacementFollowsTermination | clao/src/loopcore/action_executor.py:627-637 | in a replan, first or resumed, the replacement process is invoked only after a termination read of the named old worker in the same execution |
| ExecutorRules.ReplayEqualsOriginal | clao/src/loopcore/action_executor.py:379-409 | after an action's result is recorded and any other executions, executing it again calls nobody, changes nothing and returns the same ok flag, next state and worker |
| ExecutorRules.UnrecordedStaysExecutable | clao/src/loopcore/action_executor.py:425-435 | a proven non-start is not recorded, so the action stays executable |
| ExecutorRules.EffectShape | clao/src/loopcore/action_executor.py:229-278 | one effect calls the peer only about its own operation, and a kill it reports as done ended with a termination read |
| ExecutorRules.ExecuteAdmits | clao/src/loopcore/action_executor.py:379-442 | the results an action of each kind can have, first or replayed; none of them is DONE |
| ExecutorAnswers.EffectEndsIff | clao/src/loopcore/action_executor.py:229-278 | one effect ends SUCCEEDED, FAILED or NOT_STARTED exactly when the stored row, the claim, the reply and the read say so, and unresolved otherwise; it invokes the peer exactly when it dispatches, and charges the counters the operation names exactly when it turns out done |
| ExecutorAnswers.ReadsProve | clao/src/loopcore/action_executor.py:168-202 | a read proves a spawn by the one listed session under its marker with the right project and harness, a kill by a terminated session, a send never; the local backend's fact proves any |
| ExecutorAnswers.DoneCarries | clao/src/loopcore/action_executor.py:229-278 | a completed operation holds what its proof brought: the reply's result, or what was read |
| ExecutorAnswers.OverBudgetIsRefused | clao/src/loopcore/action_executor.py:542-549 | a new fix or replan whose task or mission counter is at its maximum is answered (false, HUMAN) with nobody called and nothing stored |
| ExecutorAnswers.AdmittedIff | clao/src/loopcore/action_executor.py:542-561 | a new fix or replan gets its intent if and only if every counter it would charge is below its maximum and it is well formed: a target and no shell text, or a prompt and the old worker's stop proved now; the intent names exactly those counters |
| ExecutorAnswers.FixEndsIff | clao/src/loopcore/action_executor.py:542-561 | every outcome of a first local fix: refused, in conflict with the stored operation, or one effect whose final row decides the answer |
| ExecutorAnswers.ReplanEndsIff | clao/src/loopcore/action_executor.py:574-648 | every outcome of a first replan: refused, cut short before or at the stop of the old worker, in conflict, or one spawn effect whose final row decides the answer and the new worker |
| ExecutorAnswers.StopEndsIff | clao/src/loopcore/action_executor.py:650-676 | a stop is confirmed if and only if the termination is read in this call, with a stop already under way or now really invoked; it touches its own row and no counter |
| ExecutorAnswers.PlainEnds | clao/src/loopcore/action_executor.py:379-442 | CONTINUE, CANDIDATE_DONE and HUMAN call nobody and lead to WORKER_RUNNING, GATE_PENDING and HUMAN |
| ExecutorAnswers.RecordedIff | clao/src/loopcore/action_executor.py:410-436 | a result is recorded exactly when nothing was cut short and a next state is known |
| ExecutorProtocol.EffectIsARun | clao/src/loopcore/action_executor.py:229-278 | every sequential outcome of an effect is reached by some run of the concurrent protocol |
| ExecutorProtocol.KillIsARun | clao/src/loopcore/action_executor.py:650-676 | the same for a stop |
| ExecutorProtocol.SpawnIsARun | clao/src/loopcore/action_executor.py:289-347 | the same for a spawn |
| ExecutorProtocol.ExecuteIsARun | clao/src/loopcore/action_executor.py:379-442 | the same for a whole action execution, so the executor inherits every property of the protocol; the run commits an intent naming a budget's counter only while that counter is below the task's maximum |
| ExecutorProtocol.ExecuteContinues | clao/src/loopcore/action_executor.py:542-549 | from any state of the protocol, other agents in their own calls, an execution continues it by such a run |
| ExecutorProtocol.ExecutorDispatchesAtMostOnce | clao/src/loopcore/action_executor.py:379-442 | wherever executions, retries and resumptions lead, an operation has at most one process and attempts within the limit |
| ExecutorProtocol.ExecutorChargesOnce | clao/src/loopcore/action_executor.py:204-208 | the executor's counters are the numbers of succeeded operations |
| ExecutorProtocol.NonStartStaysRetryable | clao/src/loopcore/action_executor.py:542-561 | a fix or replan that proved it never started is uncharged, unrecorded, has no process and has attempts left |
| Executor.ActionExecutor.Effect | clao/src/loopcore/action_executor.py:229-278 | the method computes the specified effect: new database, calls made, outcome |
| Executor.ActionExecutor.KillWorker | clao/src/loopcore/action_executor.py:650-676 | one stop intent per session, success only with a termination fact read now |
| Executor.ActionExecutor.Spawn | clao/src/loopcore/action_executor.py:289-347 | the spawn of a replacement worker, its intent first |
| Executor.ActionExecutor.SendLocalFix | clao/src/loopcore/action_executor.py:542-561 | refused over budget on first admission only, otherwise one send effect; a non-start asks for a retry; what that means is ExecutorAnswers.FixEndsIff |
| Executor.ActionExecutor.ReplanSpawn | clao/src/loopcore/action_executor.py:574-648 | budgets on first admission only, stop of the old worker, then the spawn |
| Executor.ActionExecutor.Execute | clao/src/loopcore/action_executor.py:379-442 | the method computes the specified execution, keeps its state the outcome of a protocol run that for every counter admits only below the largest maximum any executed task gave it, and never has two processes for one operation |
| CodexRuns.StoppedIsSoundIff | clao/src/loopcore/codex_backend.py:421-428 | for every interleaving of handlers that succeed or raise, claims, writes, saves that succeed or fail, and crashes between any two: stopped means that in all the row has taken in a recognised completion of the latest turn was received, nothing announced or acknowledged since, no request open, no command or file change in progress; and in all the process has received if and only if the message that killed the reader, if any, announced no turn, asked no request and reported no running command or file change, as it is while the reader lives |
| CodexRuns.OrderlyStopIff | clao/src/loopcore/codex_backend.py:220-308 | when every process dies with all it received saved, stopped is right about everything that happened under exactly that condition |
| CodexRuns.RefusedTurnLooksStopped | clao/src/loopcore/codex_backend.py:241-243 | a reachable run without any crash or lost save: a tool call that is neither a command nor a file change is left in progress, so the announcement of the next turn raises and kills the reader, and the worker is still called stopped |
| CodexRuns.StoppedAfterRestartIff | clao/src/loopcore/codex_backend.py:185-185 | after a crash stopped is right about what the dead process had received if and only if that process's row had the same turn ended, nothing pending and no command or file change running, counting in the message its reader died of |
| CodexRuns.UnsavedTurnLooksStopped | clao/src/loopcore/codex_backend.py:359-368 | a reachable run: a second turn is acknowledged, the save fails, the process dies, and the next one calls the worker stopped |
| CodexRuns.EndedIsNotRevived | clao/src/loopcore/codex_backend.py:359-368 | within a process a late acknowledgement of the ended turn or a disconnect never takes the end back, saved or not |
| CodexRuns.EndedIsNotRevivedIff | clao/src/loopcore/codex_backend.py:359-368 | through crashes too an ended turn stays ended if and only if its end is saved |
| CodexRuns.UnsavedEndIsForgotten | clao/src/loopcore/codex_backend.py:248-256 | a reachable run: a turn completes, the process dies before the save, and the turn is running again |
| CodexRuns.WaitingInputHasARequest | clao/src/loopcore/codex_backend.py:278-296 | waiting_input implies an open request |
| CodexRuns.RestIsEarnedIff | clao/src/loopcore/codex_backend.py:248-256 | a worker is idle exactly when its latest turn was reported completed without a final error, interrupted or failed exactly when it was so reported or a final error came, and nothing has stirred it since; through disconnects and crashes |
| CodexRuns.RefusedIff | clao/src/loopcore/codex_backend.py:241-293 | a message kills the living reader at once exactly when it announces a turn with a request open or an item in progress, concerns an item or request of any turn but the latest, or cannot be read; the row is then untouched, and every other message is taken in |
| CodexRuns.DisconnectLeavesRest | clao/src/loopcore/codex_backend.py:220-228 | a disconnect leaves the state a worker came to rest in and makes every other worker unknown |
| CodexApprovals.ResponseWrittenAtMostOnce | clao/src/loopcore/codex_backend.py:549-582 | one (turn, request) identity is answered on the wire at most once; every durable claim is spent exactly once, on that write or on a death before it, or is still in hand |
| CodexApprovals.ReportIsBacked | clao/src/loopcore/codex_backend.py:499-541 | CONFIRMED and DECLINED, derived or stored, through crashes too, are backed by history: asked in the turn, an acceptance (for DECLINED any decision) written, request closed, item of the same turn with an execution result (declined) |
| CodexApprovals.ExpiredIsUnwritten | clao/src/loopcore/codex_backend.py:514-518 | EXPIRED is reported only for a request to which, in all the row has taken in, nothing was written since it was last asked |
| CodexApprovals.ExpiredIsNeverWrittenIff | clao/src/loopcore/codex_backend.py:575-582 | EXPIRED means that no response of the identity was ever tried if and only if its claim was never won, is still in hand, or the process that won it died before the write |
| CodexApprovals.OnlyHistoryTells | clao/src/loopcore/codex_backend.py:575-582 | no look at rows and stored operations decides it: two crashes in the write window, one after a write and one before, leave everything the same |
| CodexApprovals.UnsavedWriteLooksUnanswered | clao/src/loopcore/codex_backend.py:580-582 | a reachable run: the response is written, the process dies before the save, and the closed request is reported EXPIRED |
| CodexApprovals.RecordedFactIsReturnedIff | clao/src/loopcore/codex_backend.py:499-506 | a stored success is what a query returns if and only if the row holds the receipt it was submitted under; otherwise, as after the request is asked again, the query reports nothing known or EXPIRED, never a success |
| CodexApprovals.RecordedFactIsStableIff | clao/src/loopcore/codex_backend.py:499-506 | a stored success never changes, and without another asking every later query returns it, through crashes too, if and only if that receipt is in the row and saved |
| CodexApprovals.ReaskedRequestLooksUnanswered | clao/src/loopcore/codex_backend.py:288-296 | a reachable run in which a request asked twice is reported EXPIRED although one response was written: asking again replaces the receipt |
| CodexReceipts.FactTellsIff | clao/src/loopcore/codex_backend.py:499-541 | with no success stored for it, the report on a response is decided by the history since its request was last asked: SUCCEEDED if and only if the request was not voided, is closed, and an acceptance was written and the item ran or a refusal was written and the item was declined; FAILED if and only if it was voided unanswered or an acceptance was declined; every verdict and flag likewise |
| CodexReceipts.UnaskedTellsNothing | clao/src/loopcore/codex_backend.py:513-513 | of a request not asked in this turn, or asked again in another, nothing is reported as known |
| CodexReceipts.RecordIsWhatTheHistoryTells | clao/src/loopcore/codex_backend.py:596-598 | what is recorded of a claimed response is what the history calls for; a recorded success and an unclaimed response stay as they are |
| CodexReceipts.SubmitIsTakenIff | clao/src/loopcore/codex_backend.py:549-578 | an answer goes on to its claim if and only if it is permitted, the reader lives, the request is live, the turn is not over and no other answer was given to the same identity; the request is then open in the history |
| CodexReceipts.SaveOrNot | clao/src/loopcore/codex_backend.py:187-197 | everything that waits for a save is in the store after it; a save that fails leaves the store as it was, and kills the reader after a message only |
| CodexReceipts.ClaimEnds | clao/src/loopcore/codex_backend.py:579-585 | the ways out of a claim in hand: written and saved, or, when the write or the save fails, stored as UNKNOWN with the store's row unchanged |
| CodexReceipts.StepReads | clao/src/loopcore/codex_backend.py:230-308 | every step, failed save and crash keeps each receipt, field by field, what the history its row has taken in says since the request was asked |
| CodexApprovals.StepKeepsApprovals | clao/src/loopcore/codex_backend.py:230-308 | every step, failed save and crash keeps receipts in memory, receipts in the store and stored operations true to the history |
| CodexRuns.StepKeepsRowsOk | clao/src/loopcore/codex_backend.py:230-308 | every step, failed save and crash keeps turn, end, requests and items of the row in memory and of the stored row exactly what the part of the history each has taken in says |
| CodexBackend.Notify | clao/src/loopcore/codex_backend.py:240-308 | one notification against its row, raising before any change exactly where the handler raises |
| CodexBackend.EndTurn | clao/src/loopcore/codex_backend.py:257-259 | every receipt of the ended turn, and no other, learns its status |
| CodexBackend.EndItem | clao/src/loopcore/codex_backend.py:270-273 | every receipt about the finished item of the turn, and no other, learns its outcome |
| CodexBackend.CodexBackend.Receive | clao/src/loopcore/codex_backend.py:230-308 | a message changes the first row of its thread and is saved, or kills the reader for all rows, or the process dies in between; every row in memory and in the store stays what its own history makes of it |
| CodexBackend.CodexBackend.AcceptedTurn | clao/src/loopcore/codex_backend.py:359-368 | the acknowledgement of a turn and its save, which may fail or never come |
| CodexBackend.CodexBackend.Save | clao/src/loopcore/codex_backend.py:187-197 | one save stores every worker's row as it is in memory |
| CodexBackend.CodexBackend.Reconnect | clao/src/loopcore/codex_backend.py:177-185 | a new process has the stored rows and operations and no live request |
| CodexBackend.CodexBackend.Disconnected | clao/src/loopcore/codex_backend.py:220-228 | a dead reader leaves rows at rest alone and makes all others unknown; a failing save is swallowed |
| CodexBackend.CodexBackend.FindWorker | clao/src/loopcore/codex_backend.py:235-238 | the first registered worker bound to the thread |
| CodexBackend.CodexBackend.SubmitApproval | clao/src/loopcore/codex_backend.py:549-574 | intent for a live permitted request of an unfinished turn only, then claim, write and save |
| CodexBackend.CodexBackend.ClaimResponse | clao/src/loopcore/codex_backend.py:575-578 | the claim is durable before the receipt learns of it; a refused claim writes nothing |
| CodexBackend.CodexBackend.WriteResponse | clao/src/loopcore/codex_backend.py:579-581 | one write for the claim in hand; a failing one is doubtful |
| CodexBackend.CodexBackend.ConfirmResponse | clao/src/loopcore/codex_backend.py:582-585 | the save after a good write; when it fails the receipt stays written and the operation becomes UNKNOWN |
| CodexBackend.CodexBackend.RecordFact | clao/src/loopcore/codex_backend.py:596-598 | the reported fact is stored for a claimed response, with its status; a stored success is final |
| CodexBackend.CodexBackend.Query | clao/src/loopcore/codex_backend.py:499-541 | the fact of one response: the stored success of its receipt, otherwise exactly what the history since the last asking calls for; CONFIRMED and DECLINED imply that it really happened |
| CodexBackend.CodexBackend.IsStopped | clao/src/loopcore/codex_backend.py:421-428 | the stop answer, and exactly when it is right about all the process has received; with a live reader it is |
| ClosedLoop.DoneIsEarned | clao/src/loopcore/closed_loop.py:1086-1122 | in every history, whatever the roles return or raise and wherever the process dies and restarts: a finished task has one transition into DONE, directly after a resolved workspace, a path gate without an objection and a green run (for the verifier path also a known change set and PASS), and nothing after it |
| ClosedLoop.TerminalIsFinal | clao/src/loopcore/closed_loop.py:183-185 | no transition follows DONE, HUMAN or FAILED |
| ClosedLoop.SoundPrefix | clao/src/loopcore/closed_loop.py:111-118 | every prefix of a sound history, hence every crash point, is sound |
| ClosedLoop.GatePassesIff | clao/src/loopcore/closed_loop.py:1086-1122 | a recorded gate run finishes the task if and only if the workspace resolved, the run is green, and the path gate found everything in scope or could not read the workspace itself |
| ClosedLoop.DoneIsAuditedIff | clao/src/loopcore/closed_loop.py:1359-1383 | in every history an entry into DONE has compared the changed paths with the frozen base and found all in scope if and only if the path gate's own workspace read succeeded; a change out of scope gets in only past a failed read |
| ClosedLoop.UnauditedPass | clao/src/loopcore/closed_loop.py:1371-1373 | a run of the controller that finishes a task with a changed path out of scope |
| ClosedLoop.HaltAlwaysReachesHuman | clao/src/loopcore/closed_loop.py:676-693 | a halt goes to HUMAN from every state that is not terminal |
| Contracts.LegalByTarget | clao/src/loopcore/mission_contracts.py:115-144 | the transition table, read backwards: from where each state, DONE among them, can be entered |
| ClosedLoop.TaskLoop.RunGate | clao/src/loopcore/closed_loop.py:1086-1163 | the gate's reads and the transition they demand are the next things recorded; only a green, unobjected run records DONE |
| ClosedLoop.TaskLoop.RunVerifier | clao/src/loopcore/closed_loop.py:1165-1311 | the historical path records its reads up to the first doubt, a saved verdict in place of a fresh one, and the transition they call for: DONE only with the full evidence |
| ClosedLoop.TaskLoop.Perform | clao/src/loopcore/closed_loop.py:1050-1084 | exactly the given action is executed, in its own pending state where that is legal; the answer's state is entered where legal, and its worker bound and stored before a clean return |
| ClosedLoop.TaskLoop.Reroute | clao/src/loopcore/closed_loop.py:1070-1075 | the replacement is bound in memory, then stored; a process that dies in between leaves the old worker stored |
| ClosedLoop.TaskLoop.Record | clao/src/loopcore/closed_loop.py:1022-1048 | the planner's choice is on record, unless the audit already has one |
| ClosedLoop.TaskLoop.ToPlanner | clao/src/loopcore/closed_loop.py:1022-1048 | the planner is asked, its choice recorded and exactly that choice carried out; a round that returns has left every deciding state but the gate's |
| ClosedLoop.TaskLoop.ResumePlanner | clao/src/loopcore/closed_loop.py:979-1001 | resumption with a surviving audit asks the planner and carries its choice out; without one it audits again; either way the deciding states are left and what a further resumption needs is kept |
| ClosedLoop.TaskLoop.ResumeAction | clao/src/loopcore/closed_loop.py:1003-1020 | with a record and its audit exactly the recorded action is executed again, and the executor's answer is followed; without a record, and with an audit, nothing can be resumed and the call raises |
| ClosedLoop.TaskLoop.CompletionAudit | clao/src/loopcore/closed_loop.py:1313-1347 | an audit from any live state moves the task on or halts it; from AUDIT_PENDING evidence is gathered, then the planner asked and its choice carried out |
| ClosedLoop.TaskLoop.IdleCompletion | clao/src/loopcore/closed_loop.py:575-651 | a quiet worker whose evidence moves the task to its gate has the gate decided in the same call |
| ClosedLoop.TaskLoop.Work | clao/src/loopcore/closed_loop.py:257-300 | a waiting gate is decided; a retrying worker is left alone or audited |
| ClosedLoop.TaskLoop.SpawnFirst | clao/src/loopcore/closed_loop.py:287-306 | the first worker is bound, stored and the task set running, or the task is halted, or nothing happens |
| ClosedLoop.TaskLoop.Halt | clao/src/loopcore/closed_loop.py:676-693 | a halt that returns from a live state has told a bound worker to stop and records exactly one transition, into HUMAN |
| ClosedLoop.TaskLoop.Transition | clao/src/loopcore/closed_loop.py:111-118 | only legal transitions are recorded, and DONE only with evidence |
| ClosedLoop.TaskLoop.Step | clao/src/loopcore/closed_loop.py:129-179 | a terminal or stopped task is left alone; a clean step of any state that waits for a role or an action halts the task or does exactly what that state calls for: the recorded action again, the planner's choice, an audit and the planner's choice, or the verifier's decision; it keeps the record a resumption reads at any point the process may die; a handed-over error ends terminal; an unexpected one counts or ends terminal |
| ClosedLoop.TaskLoop.ThreeSteps | clao/src/loopcore/closed_loop.py:127-127 | three unexpected errors in a row end in a terminal state |
| ClosedLoop.TaskLoop.Recover | clao/src/loopcore/closed_loop.py:203-252 | any stored history, at any crash point, is taken over as it is |
| PathScope.FindTarget | clao/src/loopcore/approvals.py:198-235 | the loop computes the specified walk: link before dot-dot, strict resolution, missing tail; its lexical name is PathScope.TargetIsNamed |
| PathScope.TargetIsNamed | clao/src/loopcore/approvals.py:207-235 | the lexical name of an accepted target is the requested path normalised by its text alone, whatever links were followed |
| PathScope.ResolvableIsAccepted | clao/src/loopcore/approvals.py:198-235 | a path the system resolves without leaving the root is accepted, as the place it resolves to |
| PathScope.NewFileIff | clao/src/loopcore/approvals.py:220-231 | a path to something that does not exist is accepted exactly when it breaks off at a name in a confirmed directory and goes on with names only; the target is those names below that directory |
| PathScope.TargetIsContained | clao/src/loopcore/approvals.py:198-235 | for every tree with links and every path: an accepted target and every resolved intermediate lie under the root, and missing parts hang only below a confirmed directory |
| PathScope.TargetIsWhatIsOpened | clao/src/loopcore/approvals.py:198-235 | where the system itself resolves the path, the accepted target is exactly that place and lies under the root |
| PathScope.ResolvableIff | clao/src/loopcore/approvals.py:210-217 | an accepted existing target can be resolved by the system if and only if no dot-dot was taken at a file |
| PathScope.ParentOfAFileIsAccepted | clao/src/loopcore/approvals.py:210-217 | a tree and a path that is accepted although the system refuses it |
| PathScope.WalkSplit | clao/src/loopcore/approvals.py:230-230 | strict resolution composes along the path |
| FileChanges.CheckEdit | clao/src/loopcore/approvals.py:267-276 | a path passes exactly when it is contained, new or a regular file, and in scope under both of its names |
| FileChanges.Decide | clao/src/loopcore/approvals.py:108-126 | a file-change request is allowed if and only if nothing is widened, it belongs to its item, and every path and move target of at least one change passes |
| FileChanges.EditOkIff | clao/src/loopcore/approvals.py:267-276 | an edit is authorised exactly when its target is accepted, is a regular file or new, and both the path as it was asked, normalised by its text, and the place it resolves to are allowed and not forbidden |
| FileChanges.ForbiddenNameIsRefused | clao/src/loopcore/approvals.py:267-276 | a request that names a path at or beneath a forbidden directory is refused, whatever its links resolve to |
| FileChanges.AllowedIsContained | clao/src/loopcore/approvals.py:108-126 | an authorised path is confirmed under the root, and is what the system opens, a regular file |
| FileChanges.ForbiddenSubtree | clao/src/loopcore/approvals.py:267-276 | an authorised name is neither a forbidden directory nor beneath one |
| FileChanges.AllowedAvoidsGit | clao/src/loopcore/approvals.py:78-81 | an authorised name has no .git component at any depth |
| Glob.MatchedSubtree | clao/src/loopcore/approvals.py:247-252 | a path that matches a pattern list brings every path beneath it |
| Glob.MatchConcat | clao/src/loopcore/approvals.py:247-252 | matches concatenate, star absorbing the separator too |
| Glob.MatchSplit | clao/src/loopcore/approvals.py:247-252 | a match of two patterns in a row splits into one match of each |
| Glob.LiteralCoversIff | clao/src/loopcore/approvals.py:247-252 | a pattern without wildcards covers exactly itself and its descendants |
| Glob.GitIsForbidden | clao/src/loopcore/approvals.py:81-81 | the four added patterns forbid .git and its contents at every depth |
| GlobMeaning.MatchesIff | clao/src/loopcore/approvals.py:247-252 | a text is matched if and only if it can be cut into one fitting piece per token: any text for a star, one character for a question mark, a class or a character |
| GlobMeaning.ParseIsAPartition | clao/src/loopcore/approvals.py:247-252 | the tokens of a pattern are its text, cut up; a bracket is a class exactly when it closes |
| GlobMeaning.CoveredIff | clao/src/loopcore/approvals.py:247-252 | a path is covered if and only if for some pattern, without trailing slashes and with slashes for backslashes, it matches that or that with anything beneath |
| CommandTokens.SplitCommand | clao/src/loopcore/approvals.py:279-314 | the index loop computes the specified token list or the specified refusal |
| CommandTokens.RoundTrip | clao/src/loopcore/approvals.py:279-314 | the tokenizer undoes its printer for every nonempty list of expressible tokens |
| CommandTokens.ReachableIff | clao/src/loopcore/approvals.py:279-314 | exactly which token lists some command stands for |
| CommandLayout.TokensIff | clao/src/loopcore/approvals.py:279-314 | a command stands for a list of arguments if and only if it holds no control character but tabs and is laid out as exactly these, each a word or quoted, with gaps of spaces and tabs between them; everything else is refused |
| CommandScope.AcceptedIsPlain | clao/src/loopcore/approvals.py:339-359 | an accepted command has no shell syntax in any argument, is no directory change, and runs in a confirmed directory under the root |
| CommandScope.AcceptedIff | clao/src/loopcore/approvals.py:339-359 | exactly when a command is accepted, as which arguments and in which directory: no shell syntax, and what it or its wrapper runs is one plain command, whose tokens are all the arguments, alone or after one cd |
| CommandScope.PowerShellIsTransparent | clao/src/loopcore/approvals.py:323-335 | a PowerShell wrapper with harmless flags is read as the command it wraps, or refused like it |
| CommandScope.WrapperIsTransparent | clao/src/loopcore/approvals.py:317-336 | a known shell wrapper around a literal command is read as that command, or refused like it |
| LoopBus.LoopBus.Accept | clao/src/loopcore/bus.py:128-141 | the locked part of a submission: reservation, budget, issue merge and counters, or the specified refusal |
| LoopBus.LoopBus.CheckIdempotent | clao/src/loopcore/bus.py:251-267 | a free key is reserved and the oldest evicted beyond the cap; a reserved key is refused unchanged |
| LoopBus.LoopBus.CheckBudget | clao/src/loopcore/bus.py:269-284 | the thread is created on first sight and judged by hop, count and age; when it passes is BusAdmission.AdmittedIff |
| BusAdmission.AdmittedIff | clao/src/loopcore/bus.py:117-141 | a message is admitted if and only if its key is free, it and its thread are within the hop limit, the thread is no older than the timeout, a report names its issue, and an audit request finds audits left |
| BusAdmission.RefusedIff | clao/src/loopcore/bus.py:251-284 | every refusal has its one reason, the first that applies |
| BusAdmission.AdmissionCounts | clao/src/loopcore/bus.py:128-141 | an admitted message goes on with one more hop on its issue's thread or its own and is otherwise the message submitted; one hop, and one audit for an audit request, is counted on that thread and no other |
| BusAdmission.RefusalCounts | clao/src/loopcore/bus.py:117-141 | a refused message leaves issues, routes, hops and audits alone, but for an audit request beyond its limit, which is counted |
| BusAdmission.ReportIsMerged | clao/src/loopcore/bus.py:193-232 | after an admitted report its issue names the reporter and holds its evidence beside all it had, with thread and verdict kept; no other issue changes |
| BusAdmission.CommittedIsYoungest | clao/src/loopcore/bus.py:150-169 | a delivered key becomes the last to be evicted, a key given back leaves the order, the others keep theirs; an evicted key cannot be committed |
| BusAdmission.AcceptedInTimeIff | clao/src/loopcore/bus.py:269-284 | in every run a message is accepted exactly when its key is free, hops and audits are left, and its thread was first seen no longer ago than the timeout |
| LoopBus.LoopBus.Dedup | clao/src/loopcore/bus.py:193-232 | a report of a known issue is merged into it and redirected to its thread |
| LoopBus.LoopBus.Rollback | clao/src/loopcore/bus.py:150-152 | the reservation is gone, all else stays |
| LoopBus.LoopBus.Commit | clao/src/loopcore/bus.py:166-169 | a delivered key becomes the youngest; an evicted one is an error after delivery |
| LoopBus.LoopBus.ResolveIssue | clao/src/loopcore/bus.py:234-244 | one verdict per issue |
| LoopBus.LoopBus.Register | clao/src/loopcore/bus.py:100-108 | one handler per non-blank endpoint |
| BusRuns.DeliveredAtMostOnce | clao/src/loopcore/bus.py:117-169 | for every interleaving, until the key itself is evicted: one submission of it at a time, at most one delivery, none in progress after it |
| BusRuns.DuplicateIff | clao/src/loopcore/bus.py:251-267 | a submission whose key was never evicted is refused as duplicate if and only if its key is in progress, delivered, or was left behind by a missing route or fingerprint |
| BusRuns.RetryableAfterFailure | clao/src/loopcore/bus.py:143-165 | after a raising handler or an escalation the key is accepted again |
| BusRuns.EvictedKeyIsDeliveredAgain | clao/src/loopcore/bus.py:264-267 | a reachable run in which a full table forgets a delivered key and delivers it again |
| BusRuns.IssuesAreStable | clao/src/loopcore/bus.py:193-244 | in every interleaving an issue keeps its thread and every report, and its first verdict |
| BusRuns.KeysAreBounded | clao/src/loopcore/bus.py:262-267 | the key table never outgrows its cap |
| BusBudgets.HopsAreBounded | clao/src/loopcore/bus.py:278-281 | no handler sees a hop beyond the limit, and no thread accepts more than the limit of messages submitted to it |
| BusBudgets.AuditsAreBounded | clao/src/loopcore/bus.py:137-141 | at most the limit of audit requests per thread ever reach a handler |
| BusBudgets.BeyondLimitIff | clao/src/loopcore/bus.py:128-134 | a submission takes a thread beyond its hop limit if and only if it is admitted, reports an issue of that other thread, and the thread has used all its hops |
| BusBudgets.HopsStayWithinIff | clao/src/loopcore/bus.py:128-134 | in every interleaving the hops used on a thread stay within the limit if and only if no admitted report overruns it |
| BusBudgets.AcceptedUseHops | clao/src/loopcore/bus.py:128-134 | every accepted message uses a hop of the thread it ends up on, so without an overrun no thread accepts more than its limit |
| BusBudgets.RedirectedMessagesExceedTheLimit | clao/src/loopcore/bus.py:129-134 | a run in which redirected reports take a thread beyond its hop limit |
| EventObserver.Observer.FeedOne | clao/src/loopcore/event_observer.py:57-83 | the method computes the specified new state and alerts |
| EventObserver.Observer.CheckRepeatedError | clao/src/loopcore/event_observer.py:106-141 | grouping, threshold, cooldown and recording, group by group |
| EventObserver.Observer.CheckNoProgress | clao/src/loopcore/event_observer.py:143-179 | counting, thresholds, cooldown and recording |
| EventObserver.ReplayIsTransparent | clao/src/loopcore/event_observer.py:57-83 | with a persistent store any sequence with replays gives the same windows, cooldowns, stored facts and alerts as its first occurrences under the same clock |
| EventObserver.WindowsStaySane | clao/src/loopcore/event_observer.py:85-88 | window identities stay unique, at most 10000 and contained in the seen set |
| EventObserver.RepeatedErrorIff | clao/src/loopcore/event_observer.py:106-141 | exactly when a new event raises REPEATED_ERROR for a fingerprint |
| EventObserver.NoProgressIff | clao/src/loopcore/event_observer.py:143-179 | exactly when a new event raises NO_PROGRESS |
| EventObserver.RecentHoldsExactly | clao/src/loopcore/event_observer.py:90-97 | what is counted is exactly what the deque holds of that fingerprint inside the window, each event once |
| EventObserver.RepeatedErrorIsBacked | clao/src/loopcore/event_observer.py:106-141 | each REPEATED_ERROR counts exactly its window's events of that fingerprint: at least the threshold, all different, none older than the window |
| EventObserver.AlertsAreSpaced | clao/src/loopcore/event_observer.py:181-191 | alerts of one key are at least a cooldown apart |
| ObserverWindows.NewEventIsAppended | clao/src/loopcore/event_observer.py:57-88 | after a new event the worker's window is the latest 10000 events with it at the end, the oldest event and its identity gone beyond them, and no other worker's window changed |
| ObserverWindows.StallIff | clao/src/loopcore/event_observer.py:143-179 | NO_PROGRESS is raised exactly when among the latest 10000 events of the worker, no older than the window before the last dated one, enough are activity and too few progress, outside the cooldown and not yet recorded |
| ObserverWindows.RepetitionIff | clao/src/loopcore/event_observer.py:106-141 | the same for REPEATED_ERROR, counting the error events of the fingerprint |
| ObserverWindows.StallClockIff | clao/src/loopcore/event_observer.py:143-191 | the cooldown clock of a stall starts exactly when one is detected outside its cooldown, raised or already recorded |
| ObserverWindows.RepetitionClockIff | clao/src/loopcore/event_observer.py:106-141 | the same for the clock of a fingerprint |
| ObserverWindows.AlertsAreRaisedOnce | clao/src/loopcore/event_observer.py:181-191 | with a persistent store no alert identity is raised twice, also by a process that starts with nothing but the store |
| JsonEscapes.RepairJson | clao/src/loopcore/ao_adapter.py:47-91 | the character pass computes the specified text |
| JsonEscapes.RepairKeepsMeaning | clao/src/loopcore/ao_adapter.py:47-91 | a strict reader of the output gets exactly what a lenient reader of the input understands, and fails only on a lone final backslash |
| JsonEscapes.RepairIsNormal | clao/src/loopcore/ao_adapter.py:47-91 | every backslash of the output starts an escape of section 7 of RFC 8259, except possibly one final lone one, and the length at most doubles |
| JsonEscapes.RepairIsANormaliser | clao/src/loopcore/ao_adapter.py:47-91 | the repair changes nothing if and only if nothing is wrong, and is idempotent |
| SseFraming.ChunksDoNotMatter | clao/src/loopcore/ao_adapter.py:358-376 | the blocks emitted and the remainder kept are the same for every way of cutting the stream into chunks |
| SseFraming.SplitIsAPartition | clao/src/loopcore/ao_adapter.py:370-376 | blocks, boundaries and remainder give the stream back, and no block holds a boundary |
| SseFraming.CursorIsHighest | clao/src/loopcore/ao_adapter.py:384-386 | the resume cursor never decreases and is the highest number delivered |
| SseFraming.EventStream.Receive | clao/src/loopcore/ao_adapter.py:367-387 | one chunk: the specified blocks, remainder and cursor |
| ConfigTree.FlattenNest | clao/src/loopcore/effective_config.py:102-127 | flatten undoes nest for prefix-free paths |
| ConfigTree.FlattenInsert | clao/src/loopcore/effective_config.py:119-127 | writing one value changes the flat form at that path only |
| ConfigTree.NestKeepsIff | clao/src/loopcore/effective_config.py:119-127 | of different paths each keeps its value if and only if none runs through another |
| ConfigTree.NestLosesThroughPaths | clao/src/loopcore/effective_config.py:119-127 | two paths, one through the other, of which one loses its value |
| EffectiveConfig.ResolveConfig | clao/src/loopcore/effective_config.py:167-194 | the loops compute the specified resolution or refusal |
| EffectiveConfig.ApplyLayer | clao/src/loopcore/effective_config.py:171-188 | one layer: aliases, dead options, validation, override and source |
| EffectiveConfig.WinnerTakesOption | clao/src/loopcore/effective_config.py:180-188 | each option has the value and the source of the last layer that sets it |
| ConfigReading.MigrateIff | clao/src/loopcore/effective_config.py:171-180 | old names are read if and only if they agree with the new ones and each other; then exactly what was asked for is read, each old name as the new one, and every renamed option reported |
| ConfigReading.ReadableIff | clao/src/loopcore/effective_config.py:102-117 | a document can be read if and only if every key at every depth is well formed and every section lies on the way to some option, old or new |
| ConfigReading.GivenIff | clao/src/loopcore/effective_config.py:102-188 | a document is accepted if and only if its keys and sections are known, its old names agree and every option is known, or dead, and valid |
| ConfigReading.ResolvesIff | clao/src/loopcore/effective_config.py:167-194 | a configuration results if and only if both documents are accepted and the outcome keeps the rules between options |
| ConfigReading.AskedIsHeld | clao/src/loopcore/effective_config.py:167-194 | an option asked for, under its own name or an old one, has the value and source of the overrides, else of the document, else its default |
| ConfigReading.WarningsIff | clao/src/loopcore/effective_config.py:171-188 | the warnings are the earlier ones, one for each old name given and one for each dead option given |
| EffectiveConfig.ResolveIsIdempotent | clao/src/loopcore/effective_config.py:167-194 | resolving a resolved configuration gives it back |
| EffectiveConfig.ResolveLayerByLayer | clao/src/loopcore/effective_config.py:167-194 | resolving layer by layer is resolving at once |
| EffectiveConfig.SnapshotRoundTrip | clao/src/loopcore/effective_config.py:246-269 | a snapshot of anything resolution produced restores to exactly that if and only if every source is one of the five allowed ones |
| EffectiveConfig.RestoreIsFaithful | clao/src/loopcore/effective_config.py:246-269 | a restored configuration has the snapshot's own values, sources, warnings and revision; no default is substituted |
| EffectiveConfig.RestoreIsStable | clao/src/loopcore/effective_config.py:250-257 | what was restored, old version or new, can be stored and restored again |
| StrictSchema.MakeStrict | clao/src/loopcore/codex_cli.py:58-75 | the recursive walk computes the specified strict schema, or refuses an object schema without properties |
| StrictSchema.StrictIsIdempotentIff | clao/src/loopcore/codex_cli.py:58-75 | strengthening a strict schema changes nothing if and only if every visited object's property table that itself looks like an object schema already has additionalProperties and required |
| StrictSchema.TablesOfSchemasAreStable | clao/src/loopcore/codex_cli.py:77-79 | where a schema stands that passes the draft-07 check, its property table is never taken for an object schema |
| StrictSchema.MisreadDataGrows | clao/src/loopcore/codex_cli.py:58-79 | a schema that passes the draft-07 check on which a second pass changes something: an enumerated value looks like an object schema |
| SchemaMeaning.ObjectSchemaIff | clao/src/loopcore/codex_cli.py:60-63 | what is taken for an object schema is exactly what names the type of an object |
| SchemaMeaning.Strengthens | clao/src/loopcore/codex_cli.py:58-79 | for the positive fragment every value accepted by the strict schema is accepted by the local one |
| SchemaMeaning.StrengthensIff | clao/src/loopcore/codex_cli.py:68-70 | a value the strict form of an object schema accepts is accepted by the local schema if and only if the names required there are declared as properties, or the value is no object |
| SchemaMeaning.UndeclaredRequirementIsDropped | clao/src/loopcore/codex_cli.py:68-70 | one schema with an undeclared requirement and a value for which it is dropped |
| SchemaMeaning.NegationStrengthensIff | clao/src/loopcore/codex_cli.py:71-75 | a negated schema is strengthened if and only if it is already as strict as it gets: all declared properties required and additionalProperties false, all the way down |
| SchemaMeaning.NegationIsWeakened | clao/src/loopcore/codex_cli.py:71-75 | a schema under not, and a value, where strengthening weakens |

## Left out

- Executor.ActionExecutor.Spawn: models the spawn of a replacement; the retry counters, backoff and alerts of the first spawn (`spawn_initial_worker`) and L0 nudges are not modelled, they add guards before the same effect.
- Executor.ActionExecutor.LoadCounters: reads the two counters back and states nothing else.
- CodexApprovals.ExpiredIsUnwritten: speaks of the time since the request was last asked and of what the row has taken in, because asking again replaces the receipt and a crash forgets what was not saved; a write that raised is taken as not written, as the code does.
- CodexBackend.CodexBackend.SubmitApproval: the polling that follows is any sequence of RecordFact, InvalidateReceipt and Query, and a fact is stored in the step that derives it. Parameters and answers of a request are not modelled, only whether policy permits the decision.
- CodexReceipts.FactTellsIff: the history is the part the row has taken in since the last asking; a withdrawal is an event of it, made when a stop overtakes a submitted answer.
- CodexBackend.CodexBackend.Save: a save that raises stored nothing.
- CodexBackend.CodexBackend.Register: a worker counts as registered from the first save of its row.
- CodexRuns.StoppedAfterRestartIff: one crash at a time, against all that the dying process had received; what earlier processes had missed is not counted again.
- CodexRuns.StoppedIsSoundIff: a frame or message that cannot be read says nothing to the history, and what the engine sends to a dead reader is not received.
- DispatchBudgets.BudgetIsSafeIff: any unresolved operation may be found to have succeeded, as with the local backend and for spawns; the AO adapter never confirms an unknown send (`clao/src/loopcore/action_executor.py:196-199`), so for such sends the condition is only sufficient there.
- CodexBackend.CodexBackend.Receive: a save that fails kills the reader like a raising handler; reasons, events, model reroutes and item contents other than kind, status and exit code are not kept.
- ClosedLoop.TaskLoop.Step: counters, cooldowns, events and alerts of a tick are arbitrary answers, so pacing and the same-alert cap are not stated; the recursion gate, audit, planner ends at an arbitrary depth as an unexpected error, because nothing in the code bounds it.
- ClosedLoop.TaskLoop.Recover: the record taken over is one the history made.
- ClosedLoop.TaskLoop.ToPlanner: whether the audit already has a record is arbitrary; when it has, the choice carried out now need not be the one on record.
- ClosedLoop.TaskLoop.CompletionAudit: fresh audit ids are taken as unseen.
- ClosedLoop.UnauditedPass: the reads are chosen, not derived from a Git model.
- ClosedLoop.TaskLoop.Reroute: a process that dies between the transition into WORKER_RUNNING and the store write leaves the killed worker bound; what the next process then does with it is not stated.
- FileChanges.Decide: syntax checks of paths and patterns (`_path`, `_patterns`, Windows forms) are parameters; bracket classes of a glob are an arbitrary membership function, case folding is not modelled.
- CommandScope.AcceptedIsPlain: covers `_command` and `_unwrap` with ASCII case; gate comparison, read-only inspection commands and argument checks of `_codex_command` are not modelled.
- PathScope.TargetIsContained: the tree does not change during the walk; permission errors are refusals.
- PathScope.ResolvableIff: exact for a system that takes names and dot-dots in directories only, inside link destinations too; some versions of Python's strict resolution accept a dot-dot at a file there, which the model refuses.
- LoopBus.LoopBus.Accept: payload merging is reporters and evidence only; the escalation envelope to the human and the copy of user directives to the planner are ordinary handler calls outside the protocol.
- BusRuns.DeliveredAtMostOnce: the eviction of the key ends the promise for it; an evicted key is accepted again.
- BusBudgets.HopsStayWithinIff: speaks of the hops the bus counts; an audit request refused after its hop was counted uses one without being accepted.
- ConfigTree.NestKeepsIff: where a path runs through a value set before, the code raises and the model replaces the value; the option table has no such paths.
- EventObserver.Observer.FeedOne: one clock reading per event, in whole seconds; alert texts and sample messages are not modelled.
- SseFraming.EventStream.Receive: works on decoded characters; the numbers of a block are a parameter, and reconnection backoff is not modelled.
- JsonEscapes.RepairJson: the JSON parse that follows is not modelled.
- EffectiveConfig.ResolveConfig: the option table is any table with the stated shape, validators are parameters, warnings are a set, the revision is any function of the values; YAML files and their atomic replacement are not modelled.
- StrictSchema.MakeStrict: on values, so aliasing between parts of one schema document is not modelled; a document read from JSON has none.
- SchemaMeaning.Strengthens: keywords outside type, enum, required, properties, additionalProperties, items, allOf, anyOf and not are one arbitrary rule, required to hold nothing that looks like an object schema.
- SchemaMeaning.NegationStrengthensIff: for object schemas of type, properties, required and additionalProperties whose property schemas accept something; what an unsatisfiable part hides is not stated.
- StrictSchema.MisreadDataGrows: IsSchema is the part of the draft-07 meta-schema that says where schemas stand; the keywords it leaves open are not checked.
- The mission controller, gate runner, worktree and Git inspection, model providers, panel, credentials, diagnostics and the desktop application: outside the kernel, or foreign calls.
- Error texts, redaction and fingerprint normalisation: wording only.
- The approval path of the older backend (`decide_approval`, `apply_approval`): the same containment and glob rules behind another request format.
