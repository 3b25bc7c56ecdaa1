# The event-sourced workflow kernel, verified

A model of the workflow kernel in `dsl/`. One instance is a mutable execution context that a
runtime drives through `Start`, `Feed`, `WakeDue` and `Compensate`; everything it does is
appended to a log of occurrences, from which `applyOcc` rebuilds the same state. The project
proves that the two agree, whatever the definition, and what every run keeps.

The kernel modules work on one object, `Context.ExecutionContext`. Its fields are those of the
source, plus the log and an observer of the log, `audit`, which exists for the proofs only.
`Protocol.Legal` says which record may follow which log. Every place that appends a record
proves it legal (`ExecutionContext.Record` asks for nothing less), so what holds of all
reachable logs holds of every run; those whole-run results are the lemmas of `Runs` and
`Guarantees`, stated over `Protocol.Reach`. They hold for every expression evaluator, every
executor (a function of the command and of the number of calls so far, so it may keep any
state), every clock that does not run backwards and every order in which Go may walk a map.

The rules of the kernel (where a step leads, when a fork has converged, what a command carries)
are functions, which the methods compute and the protocol refers to. `Meaning` says in both
directions what each of them amounts to, in terms of the definition and without them; `Declared`
and `Alarms` say it of every record of every run, `History` of every folded state.

| module | what it holds | main results |
|---|---|---|
| Definition, Lexical | definitions, events, the pure routing rules | |
| Meaning | what each of these rules means, read off the definition | `StepRouteMeaning`, `AiRouteMeaning`, `EndsMeaning` |
| Journal | occurrences, the fold, the outbox view | `FoldSplit`, `FoldClose`, `PendingCommands` |
| Protocol, Runs | the reference protocol and what it preserves | `ReachSane` |
| Dedup | the bounded table of consumed events | `Retained` |
| Context, Frames | the mutable context and its recording operations | `Record`, `AcceptEvent` |
| Contract, Inference, Effects, Parking, Forking | data contract, bounded inference, commands and sagas, waiting slots, forks | `Execute`, `Compensate`, `StepParallel` |
| Executor, Branches, Feeding, Engine, Temporal | the step loops, linear and in branches, events and time | `Drain`, `Feed`, `WakeDue` |
| Replay, Session | replay in place, savepoints, whole runs with restarts and crashes | `Recover`, `Run`, `CrashAnywhere` |
| Guarantees | what every reachable log satisfies | `SagaExact`, `JumpsDecided`, `NeverReissued` |
| Declared, Alarms | what every record of a run takes from the definition: commands, routes, forks, writes, due times | `CommandsAsDeclared`, `StepsAsDeclared`, `WokenAsDeclared` |
| History | what a folded state says of its log | `SlotRead`, `UndoRead` |
| Gaps | runs in which the engine breaks a promise | `EveryJump`, `GatedCompletion`, `SecondTimerLost`, `RefundLost` |
| Outbox | crashes between any two records | `Survive`, `UndoneUnlessCut` |
| Stores, Manager | journals, summary rows and snapshots of many instances | `LoadCrashed`, `ListDue`, `WakeDueSweep` |
| Joins, Cycle | join inference and cycle detection on definitions | `ResolveCommonJoin`, `DetectCycleFirst` |
| Canonical, Marshal, Evidence | canonical JSON and hash-chained evidence bundles | `Faithful`, `Binding` |

How to read a few recurring words. `ctx.Tracked()` says that the log is reachable, that the
observer is what the log leaves, and that the live state is the fold of the log: exactly, up to
an unnamed live event and, once more than 4096 ids were consumed, to ids the table has dropped
(`Context.Exact`). `Idle()` adds that the runtime stands between two operations (`Boundary`).
`Live()` is the state without timestamps.

Where the code does not keep a promise, the project says exactly when it does:

- An event without a name becomes the live event but is not folded (`UnnamedNotFolded`);
  replay is exact precisely when the live event is not such a one (`Exact`).
- The gate on decisions (dsl/principal.go) is asked only when an event reaches a parked node.
  Where the engine puts an instance on a node and steps on at once, it is not asked at all.
  `DecisionsAttributed`: every other departure has a valid principal or is the deadline's, and
  such jumps lead to the start node and the joins of forks only (`OtherDecisionsOwned`).
  `EveryJump` says of each of them, in every run and inferences included, what happens when the
  live event may not decide there: the instance is left without an owner exactly when the node
  has visits to spare and its step can be taken; else it fails there. Only several outputs
  without inputs, writable in one order and not in another, can leave that open. So it is at a
  gated start node (`GatedStart`), which only definitions built in Go can have, and at a gated
  join whenever an event completes its fork, anywhere in a run (`GatedCompletion`), which needs
  no more than a definition file: `SignedByNobody` runs one with a start node, a fork, an
  approval on each branch and a gated approval or inference as the join.
- The path reported by the cycle detector lists its last node twice; it is a walk of the graph
  exactly when that node has a self-loop (`ReportedIsWalk`, `DoubledInTwoCycle`).
- A join cache entry answers for the entry list its key was first asked with. Two lists with a
  NUL can share a key and have different joins (`NulMisleads`, `AskTwice`); a fork only ever
  asks for its own branches, and then the cache is always right (`ResolveFork`).
- The outbox view lists an id twice exactly when it was issued again after its answer
  (`PendingCommands`, `ReissueIsListedTwice`); no run does so (`NeverReissued`).
- The undo stack misses a command that was answered as completed exactly when a crash fell
  between that answer and the push of its inverse (`SagaExact`). It misses a command that was
  performed and is not answered so exactly when a crash fell between its performance and its
  answer: the reload has it answered as skipped (`UndoneUnlessCut`). That can happen to every
  command with an inverse in every run (`LoseInverseAt`), with `RefundLost` as input.
- A wake key names slot, kind and visit but not the node. A wake-up whose key was consumed
  before only clears its slot (`WakeOne`, `SwallowedIff`). Two timers in a row have one key: the
  second never goes off and the instance waits there for good (`SecondTimerLost`,
  `StrandedForGood`, with `TimersStrand` as input).

## Model

| member | source | states |
|---|---|---|
| Runs.ReachSane | dsl/journal.go:386-388 | Every log the engine can write folds without error, to the state the observer kept; slots, scopes, command ids and undo entries are well formed in it |
| Guarantees.EveryPrefixFolds | dsl/journal.go:391-398 | Every prefix of such a log folds, to the state of that moment |
| Session.Run | dsl/fold_property_test.go:166-253 | After one Start and any sequence of events, wake-ups, compensations and restarts, the log folds at every operation boundary passed to the live state of that boundary; no command id was issued twice, across linear steps, branches, timers, inference requests and compensations, and none is unanswered; without a restart the dedup table never exceeds 4096 |
| Session.Perform | dsl/runtime.go:55-60 | One operation keeps the instance at a boundary and only appends, every command issued once and answered; a refused event appends nothing, a taken one something, a tick drains what is due and does nothing when nothing is, a compensation leaves nothing to undo and touches nothing but commands, a restart changes no record |
| Session.Reopen | dsl/journal.go:403-410 | Dropping the runtime and folding the log again gives the same state, but for dedup keys the live table had dropped, which come back, and for the live event, which is lost exactly when it has no name; otherwise the resumed runtime is ready to go on |
| Session.TravelTo | dsl/journal.go:391-398 | Folding up to the sequence number written at a boundary gives the live state of that boundary |
| Session.RestingShape | dsl/runtime.go:445-498 | Between operations a started instance is waiting or terminal; at most one scope is open; an instance slot names the current node and excludes a scope; a scope slot belongs to the open scope; in a waiting fork some branch is not done, none has completed (any), fewer have than one or than required (n-of-m), and none has failed under fail-fast |
| Session.RestingBooks | dsl/journal.go:414-438 | Between operations no command is unanswered, every id was issued once, and the undo stack is the inverses of the completed commands |
| Session.CompensateAll | dsl/compensate.go:48-54 | The host's compensation fires the backlog from the top down and leaves every entry done; a second one does nothing |
| Guarantees.NeverReissued | dsl/journal.go:414-438 | In no run is a command issued again after its result |
| Guarantees.OneResultEach | dsl/runtime.go:909-933 | A command has at most one logged result |
| Guarantees.ReissueIsRedispatch | dsl/manager.go:189-192 | Two issues of one id are the same command, the first unanswered at the second |
| Guarantees.IdsAreFresh | dsl/sideeffect.go:35-46 | A log issues some id twice exactly when a command was dispatched again that had no logged result; `Session.Run` shows that no run of the engine does |
| Guarantees.UndoneOnce | dsl/compensate.go:58-78 | No compensation fires twice in a run, whoever asked for it |
| Guarantees.UndoneInReverse | dsl/compensate.go:58-78 | When an entry fires, every entry above it has fired before |
| Guarantees.SagaExact | dsl/compensate.go:29-44 | The undo stack is never longer than the list of declared inverses of the commands whose logged result is completed, and it is that list, in that order, under the keys `undo:index:id`, exactly when no record other than the push followed such a result |
| Guarantees.OutboxOf | dsl/journal.go:414-438 | The outbox view of a run's log is what was issued and not answered, and the inverses read off the log are those the engine owes |
| Guarantees.DecisionsAttributed | dsl/principal.go:59-68 | A linear departure from a node that requires a principal was driven by the last logged event, whose principal satisfies the node, or is the node's own deadline; or else the engine had just put the instance there, and it left along the route its node has for that event and the variables it was put there with, an inference along the route of its parsed result, and none of its outputs was out of reach |
| Guarantees.OtherDecisionsOwned | dsl/runtime.go:242-265 | On nodes other than the start node and the joins of forks the last case does not occur |
| Guarantees.JumpsDecided | dsl/runtime.go:171-213 | In every run, at every jump to a node a step can leave: by the next boundary the instance has moved on along the node's route, driven by the live event, or failed there, and not both; it fails where the node is worn out or its step must fail, and moves where it must move |
| Gaps.EveryJump | dsl/runtime.go:171-213 | Where that event may not decide at the node the jump leads to, an inference included: the instance leaves it with nobody who may decide behind it, or it fails; the first exactly when the node has visits left and the step must move, unless the order of several outputs decides |
| Gaps.GatedStart | dsl/runtime.go:142-163 | A gated start node, a started inference included, whose principal the first event lacks: the same, with the injected variables; no check is asked |
| Gaps.LandingUngated | dsl/runtime.go:800-829 | The same at a gated join, however the fork came to leave for it: by an event, a timer or a deadline |
| Gaps.GatedCompletion | dsl/runtime.go:272-301 | Anywhere in a run: a taken event that sends the branches that hear it straight to the join, so that the fork converges, and lacks the principal the join requires: the same at the join, with the variables and visits of before the event and `parallel_failed` |
| Gaps.SignedByNobody | dsl/runtime.go:272-301 | A run of a definition a file can hold, with a start node, a fork, two approvals and a gated join: the second event, without a principal, completes the fork and the join is left without an owner |
| Gaps.ApprovedByNobody | dsl/principal.go:59-68 | Such a join can be an approval |
| Gaps.InferredByNobody | dsl/principal.go:59-68 | Or an inference, the node with the strictest gate, called back by an event that names no model |
| Guarantees.BranchDecisionsAttributed | dsl/runtime.go:309-326 | On branches, for all definitions: a move off such a node by an external event had a valid principal |
| Guarantees.LastEventLogged | dsl/context.go:291-310 | The event said to have driven a record is a logged consumption with nothing of the kind after it |
| Guarantees.ForkLeavesConverged | dsl/runtime.go:800-829 | An instance is put on a node only at its start, or on the join of a fork closed right before, in which one branch has completed (any), at least one and as many as required (n-of-m), or all are done (otherwise), and none has failed under fail-fast |
| Guarantees.CompletesProperly | dsl/executor.go:129-186 | An instance completes only at an end node it visited, or out of a fork without a join with as many branches completed as its mode asks for, and none failed under fail-fast |
| Declared.CommandsAsDeclared | dsl/sideeffect.go:34-46 | In every log, the command first issued for effect i of a visit of a node carries the kind, target, payload, critical flag and compensation that effect declares, for the visit the node had then; at an inference the first may be its request instead, of the declared or default kind and target |
| Declared.RequestsAsDeclared | dsl/runtime.go:388-413 | The same for a request from a branch: the declared or default kind and target, and the payload built from the variables of that moment |
| Declared.UndoAsDeclared | dsl/compensate.go:58-78 | Every compensation carries kind, target and payload of the inverse declared with a command issued before, for the same node, is not critical and has no inverse itself |
| Declared.ForksAsDeclared | dsl/parallel.go:158-264 | Every scope of every run has the transitions of its fork as branches, and mode, threshold and timeout from the first of the fork's join, the join node and the fork that declares them |
| Declared.OpensAtStart | dsl/parallel.go:158-264 | A scope opens at the current node with every branch running at the target of its transition |
| Declared.NextMeaning | dsl/executor.go:189-268 | Where a node leads to, read off its transitions, conditions, event and inference result, in both directions |
| Declared.StepsAsDeclared | dsl/executor.go:129-298 | Every linear departure of every run leads from the current node to that target, given the variables the node was visited with and the last event, or to the target of its deadline |
| Declared.ChoicesAsDeclared | dsl/ai.go:170-224 | Every linear departure from an inference with candidates, other than its deadline's, leads along the first transition whose case is the choice in the last logged event, a declared candidate with a complete result, or to the declared fallback when there is no such choice or result |
| Declared.BranchesAsDeclared | dsl/runtime.go:502-789 | Every move of a branch leads where its node, its last visit and the event say, or to the target of its deadline |
| Declared.BranchChoicesAsDeclared | dsl/runtime.go:714-748 | Inferences with candidates on branches, spelled out as above |
| Declared.EventsAsDeclared | dsl/runtime.go:229-265 | Outside forks a waiting instance takes an event only where a transition or the inference has a use for it and the declared principal is given; in forks no branch that would take it lacks its principal |
| Declared.DecisionsSigned | dsl/principal.go:59-68 | A linear departure driven by an event from a node that requires a principal, when the instance was not just put there: the last logged event has a principal with kind and id, at an inference a model with its own and its prompt's version |
| Declared.VariablesAsDeclared | dsl/contract.go:48-69 | After the start a variable is written only by the summary of a fork, by a declared output with the value of its expression, or by an inference with what its callback reports, in the declared type |
| Alarms.SlotParked | dsl/temporal.go:71-120 | Every slot of every run was parked by a record with which it agrees but for its request id, for the visit its node had then and due after the duration its node declares, and was neither cleared nor served since |
| Alarms.WokenAsDeclared | dsl/temporal.go:154-186 | Every wake-up of every run serves a slot that was parked before and whose declared duration has passed |
| History.SlotRead | dsl/journal.go:241-337 | A slot holds what it was last set to unless it was cleared or served since |
| History.VariableRead | dsl/journal.go:241-337 | A variable has the last value written |
| History.NodeRead | dsl/journal.go:241-337 | The folded node is that of the last move or jump |
| History.StatusRead | dsl/journal.go:241-337 | The folded status is the last one set; a move sets it running |
| History.VisitsRead | dsl/journal.go:241-337 | The visits of a node are counted by its records |
| History.KeyRead | dsl/journal.go:241-337 | A key is known exactly when it was consumed and not released since |
| History.EventRead | dsl/journal.go:241-337 | The folded event is the last named one consumed, unless a wake-up dropped it |
| History.BranchRead | dsl/journal.go:241-337 | A branch record replaces exactly that branch and fills in only an open join |
| History.ResultsRead | dsl/journal.go:241-337 | The folded results are those logged, in order, all of them |
| History.UndoRead | dsl/journal.go:241-337 | The undo stack is the entries pushed, in order, each done exactly when its key was fired later |
| Guarantees.StartedForGood | dsl/runtime.go:142-163 | No instance becomes pending again |
| Guarantees.ConsumedWhileWaiting | dsl/runtime.go:229-241 | In every log each consumption of an event finds the folded status pending or waiting and is logged under the event's own key |
| Guarantees.ConsumedOnce | dsl/context.go:291-310 | While the table never overflowed, an id is consumed once between two releases of it |
| Guarantees.WokenOnce | dsl/temporal.go:154-170 | A wake-up is recorded only for a slot with a due time, cleared right before and consumed under its key |
| Guarantees.UnnamedNotFolded | dsl/journal.go:250-258 | In every run, consuming an unnamed event makes the live event and the replayed one differ |
| Journal.FoldSplit | dsl/journal.go:231-238 | Folding the rest of a log onto the fold of a prefix is folding the log |
| Journal.FoldClose | dsl/journal.go:231-238 | Two states that differ in the live event and in dropped dedup keys stay so under any records, and one rejects a record when the other does |
| Journal.FoldTo | dsl/journal.go:391-398 | With increasing numbers, exactly the records numbered up to the bound are folded |
| Journal.OccurrencesAfter | dsl/journal.go:341-348 | With increasing numbers, exactly the records numbered above the bound are left |
| Journal.PendingCommands | dsl/journal.go:414-438 | A command is listed exactly when some record issues it and none after it answers or reissues its id; the list is in the order of issue, and has a repetition exactly when some unanswered id was answered before |
| Journal.OutstandingMeaning | dsl/journal.go:414-438 | The map the loop keeps holds exactly the unanswered commands |
| Journal.ReissueIsListedTwice | dsl/journal.go:414-438 | An id issued, answered and issued again is listed twice |
| Context.ExecutionContext.Record | dsl/context.go:130-151 | Appends exactly the given record, which the protocol has to allow, and keeps the observer equal to the log |
| Context.ExecutionContext.AcceptEvent | dsl/context.go:291-310 | A known id is refused without a change; otherwise the event is consumed, recorded and live |
| Context.ExecutionContext.TryConsumeWake | dsl/context.go:268-283 | A wake key is consumed once while it is in the table |
| Context.ExecutionContext.ReleaseEvent | dsl/context.go:355-368 | Takes back exactly the one key, and records that it did |
| Context.ExecutionContext.ClearWaiting | dsl/temporal.go:123-132 | Removes and records exactly a slot that is set |
| Context.ExecutionContext.IncrVisit | dsl/context.go:400-404 | Exactly one more visit of the one node, recorded with the variables it was visited with |
| Context.ExecutionContext.PushScope | dsl/context.go:379-385 | Opens exactly the given scope, which must be the one its fork declares |
| Context.ExecutionContext.PopScope | dsl/context.go:388-397 | Closes the last scope, which must be settled; an empty stack is left alone |
| Context.ExecutionContext.JournalBranch | dsl/parallel.go:345-371 | Writes one branch; the first arrival fills in an open join |
| Dedup.Sweep | dsl/context.go:230-250 | Every expired entry goes; further ones only while there is no room, and never one younger than an entry that stays |
| Dedup.TrackEvent | dsl/context.go:218-226 | A known id is left alone; a new one is added, after a sweep if the table is full |
| Dedup.Play | dsl/context.go:218-226 | Any history of consumptions and releases takes the table through the specified states |
| Dedup.Retained | dsl/context.go:212-250 | With a strictly increasing clock a consumed, unreleased id is still known, at its own time, while younger than 72 hours and fewer than 4096 new ids came after it |
| Contract.EnterNode | dsl/contract.go:27-44 | The node's view: the variables, with each declared input shadowing its name by the value of its expression; there is none exactly when an input fails to evaluate |
| Contract.LeaveNode | dsl/contract.go:48-69 | The outputs are written in some order, each with the value of its expression over the node's view, or over what was written before it, in its declared type; it succeeds exactly when that order can be written and stops at an output that fails; nothing else is written |
| Contract.EvalWhenChain | dsl/contract.go:73-96 | The route of the conditions |
| Meaning.WhenRouteMeaning | dsl/contract.go:73-96 | The first true or failing condition decides, else the default |
| Contract.WritesDecided | dsl/contract.go:48-69 | With inputs, or with one output, nothing depends on an order: the outputs can be written in every order or in none |
| Meaning.ViewMeaning | dsl/contract.go:27-44 | The view has the inputs over the variables, each with its value; it exists exactly when all inputs evaluate |
| Meaning.WrittenMeaning | dsl/contract.go:48-69 | When the outputs are written in some order, each one holds the value of its expression, over the view or over what the earlier ones left, in its declared type, and nothing else changes |
| Meaning.AssignableMeaning | dsl/contract.go:114-153 | Which values a declared type takes |
| Meaning.AutoRouteMeaning | dsl/runtime.go:502-632 | Where a branch goes by itself: along the conditions of a condition node, else to its first target |
| Inference.ResolveAiNext | dsl/ai.go:170-224 | The instance is led to a node exactly when the result is complete (no error, every declared output present in its type) and that node is the target of the first transition whose case is the choice, a declared candidate; or, without candidates, of the conditions over the outputs just written; or when one of these fails and it is the declared, existing fallback. Outputs are written exactly when the bounds are kept |
| Meaning.AiRouteMeaning | dsl/ai.go:170-224 | The route of a callback, read off its payload and the node, in both directions |
| Effects.Execute | dsl/sideeffect.go:134-153 | Replies are asked for up to one more time than the retry limit, again exactly while they are transient errors; success and a permanent error are handed on as replied, and failed is the result when the attempts are used up |
| Effects.Deliver | dsl/runtime.go:909-933 | Issue, execution, result and the owed inverse are recorded in that order |
| Effects.Dispatch | dsl/runtime.go:897-906 | Every command is answered in order, and failure is reported exactly when a critical one did not succeed |
| Effects.Compensate | dsl/compensate.go:58-78 | The entries not done fire once each, latest first; the stack keeps its entries and all are done |
| Parking.ParkWaiting | dsl/temporal.go:71-120 | Parked at clock t, a timer comes due at t plus its duration, a deadline at t plus what it declares, an inference without one never; the slot names the node, its visit count and the declared target; a slot standing for the same node is kept, and nothing is parked where no valid duration is declared |
| Parking.EmitAiRequest | dsl/runtime.go:388-413 | The request is issued under a fresh id that is noted in the slot; the instance fails when it cannot be built |
| Forking.IsSatisfied | dsl/parallel.go:115-133 | Any: exactly when some branch has completed; n-of-m: exactly when at least one and as many as required have; otherwise: exactly when there are branches and all are done |
| Meaning.EndsMeaning | dsl/runtime.go:460-498 | A fork converges exactly when enough branches have completed and none failed under fail-fast; it fails its instance exactly when one failed under fail-fast or all are done and too few completed; else it waits |
| Meaning.SettingsMeaning | dsl/parallel.go:158-264 | Mode, threshold and timeout are the fork's own where it declares them, else those of its join node, else the defaults |
| Forking.StepParallel | dsl/parallel.go:158-264 | A fork with an undeclared target changes nothing; otherwise exactly the declared scope, branches and timeout are set up, at the join a recomputation finds, as the cache does for every fork (`JoinCache.ResolveFork`) |
| Joins.BfsDistances | dsl/parallel.go:315-341 | Exactly the reachable nodes, each with the length of a shortest walk that avoids the fork |
| Joins.ResolveCommonJoin | dsl/parallel.go:280-311 | In any map order the one node all branches reach with the least distance sum, ties by id; none if there is none |
| Joins.CommonJoinUnique | dsl/parallel.go:269-311 | There is at most one such node |
| Joins.JoinCache.Resolve | dsl/parallel.go:280-311 | The answer is the join of the entry list the key was first asked with, and NUL-free lists never share a key |
| Joins.JoinCache.ResolveFork | dsl/parallel.go:197-214 | Forks ask for their own branches under their own id: so used, the cache always answers as a recomputation would, whatever characters the ids have |
| Joins.JoinCache.AskTwice | dsl/parallel.go:280-290 | Asked for two lists of one key, the cache answers both with the join of the first: wrongly exactly when their joins differ |
| Joins.JoinNulInjective | dsl/parallel.go:280-290 | NUL-free entry lists have distinct cache keys |
| Joins.NulMisleads | dsl/parallel.go:280-290 | Two lists with one key and different joins |
| Executor.StepNode | dsl/executor.go:129-186 | The node is visited; it moves along its route, forks, completes or fails exactly as its type and data say, and hands out its own commands under fresh ids |
| Meaning.StepRouteMeaning | dsl/executor.go:215-268 | The route of a step is the target of the one transition taken: chosen by a condition where the node looks at them, unless that leads nowhere; else declared for the event; else the first with a target, where the node neither waits nor decides by conditions; there is no route exactly when a condition fails first or no transition is taken |
| Executor.MoveDecided | dsl/executor.go:215-280 | Before a step it is known whether it moves or fails, inferences included, unless several outputs without inputs can be written in one order and not in another; with inputs, with one output or for an inference it always is |
| Executor.FinishTransition | dsl/executor.go:271-280 | The outputs come before the move; the node fails when one is blocked |
| Executor.AssignTransition | dsl/executor.go:283-298 | Status and node change together with their two records |
| Branches.AdvanceBranch | dsl/runtime.go:502-632 | Only this branch moves; afterwards it rests at a join, an end, a waiting or missing node, or the step limit ran out; a done branch is left alone |
| Branches.AdvanceOnce | dsl/runtime.go:502-632 | One round fails the branch at a worn-out or missing node, completes it at a join or an end, parks it at a waiting node, and otherwise moves it along the conditions of a condition node, or the first transition of any other node, unless it fails there; it stops only at rest and leaves a record when it does not stop |
| Feeding.FeedBranch | dsl/runtime.go:637-710 | A branch reacts exactly when it waits for the event and its route leads on, and then goes to the target of the first transition declared for the event, at a condition node without one along the conditions, at an inference where its choice leads, unless it fails there; otherwise only the visit count of its node changed; one that the event sends from a node without outputs and commands straight to the join ends there, and nothing else changes but its slot and visits |
| Feeding.FeedAi | dsl/runtime.go:714-748 | Only the callback of the branch's own request moves it; anything else changes nothing |
| Feeding.FedRouteMeaning | dsl/runtime.go:637-710 | An event sends a branch along the first transition declared for it; a condition node looks at its conditions exactly when that leads nowhere, and the branch fails exactly when one of them does |
| Feeding.HearsMeaning | dsl/runtime.go:637-748 | Which event makes which branch react |
| Feeding.AdvanceTimerBranch | dsl/runtime.go:753-789 | A due timer fails its branch when its inputs, its conditions or its routes give it no target; else it moves the branch to that target, or fails it over an output or a command: certainly the first when the outputs are writable and no command is declared, certainly the second when an output never is |
| Engine.Runtime.Start | dsl/runtime.go:142-163 | Records the identity, the variables, the event, the start node and the status, in this order and nothing else before the first step, and is then in the state these give; performs the start node's commands; the first step, of an inference too, is logged as a move along its route when it must move and ends the run when it must fail; ends at rest: parked, terminal or in an open fork |
| Engine.Runtime.Feed | dsl/runtime.go:229-306 | Refused exactly when terminal, unaccepted, unattributed or a duplicate, and then nothing changed; otherwise the consumption comes first and a linear instance is driven to rest; in a fork every waiting branch is offered the event, and then the fork settles, a converged one by a jump to its join that is driven by this event; what no branch takes leaves branches, slots, variables, undo stack and, below capacity, dedup keys as before |
| Engine.Runtime.CheckBranchPrincipals | dsl/runtime.go:309-326 | True exactly when no waiting branch that would take the event misses its principal |
| Engine.Runtime.AttributeMeaning | dsl/runtime.go:328-372 | An event is given a principal exactly when it has none, a parked inference awaits it and its payload names a model: then that model, with the payload's model and prompt versions; nothing else of the event changes |
| Engine.Runtime.FeedAll | dsl/runtime.go:272-301 | In any order of the branches: handled exactly when one of them reacts; where those that react go straight to the join, the scope afterwards is the one before with these branches ended there |
| Engine.Runtime.DrainStep | dsl/runtime.go:171-213 | A worn-out or missing node fails the instance without a visit; any other is visited and its commands answered; the loop goes on only at a node that does not wait |
| Engine.Runtime.Drain | dsl/runtime.go:171-213 | Terminates, by the remaining visits of all nodes, although it is reentered for every fork; ends at rest; a first step that must move is logged as a departure along its route, driven by the live event, one that must fail fails the instance without a move; as long as the steps write no outputs and send no commands, through forks whose branches stop at once too, the state it ends in is the one computed from the first (`EndsPlainly`) |
| Engine.Runtime.RunFork | dsl/runtime.go:445-456 | Every branch advances to rest in any order, then the scope settles |
| Engine.Runtime.SettleScope | dsl/runtime.go:460-498 | A fork that fails fast fails the instance; else one in which enough branches have completed for its mode is left by a logged jump to its join, with `parallel_failed` set and the live event the same, and drained from there, or completes the instance when it has none; else an exhausted one fails it; any other stays as it is, waiting or timed out |
| Engine.Runtime.CompleteParallel | dsl/runtime.go:800-829 | Leaves for the join exactly when there is one, else completes |
| Engine.Runtime.Summarize | dsl/runtime.go:800-829 | Partial success cancels the other branches, and `parallel_failed` becomes the number of failed ones |
| Engine.Runtime.CancelPending | dsl/runtime.go:842-851 | Cancels what is not done, in any order, and leaves the slots as they are |
| Temporal.NextDue | dsl/temporal.go:174-186 | In any map order the least due slot by time and name, none exactly when none is due |
| Temporal.NextUnique | dsl/temporal.go:174-186 | There is one such slot when slot names are distinct |
| Temporal.NextWakeup | dsl/temporal.go:137-150 | The least due time; it has come exactly when some slot is due |
| Temporal.FireWaiting | dsl/temporal.go:190-277 | A scope timeout ends an unconverged fork; a deadline moves its owner to the declared target when the node can be left and fails the instance when the target is missing or the node cannot be left; a timer drives its instance on or has its branch react; behind a branch that was moved the fork settles; a stale slot does nothing |
| Temporal.LeavingDecided | dsl/temporal.go:190-277 | Which of the two a deadline does is known before it fires, unless several outputs without inputs can be written in one order and not in another |
| Temporal.WakeOne | dsl/temporal.go:154-170 | A wake key in the table only clears the slot, and that is all the log says; any other is consumed, its slot cleared, the wake-up recorded and served; new slots are due later than the clock |
| Guarantees.WakeKeyConsumed | dsl/context.go:268-283 | The folded keys hold a wake key exactly when some record consumed it |
| Gaps.SwallowedIff | dsl/temporal.go:154-170 | A due slot is only cleared when some wake-up of its slot, kind and visit was consumed before; unless the table ever overflowed, exactly then |
| Gaps.SecondTimerLost | dsl/temporal.go:71-120 | Wherever an instance goes from its start to a timer and from there to another timer visited as often, the second alarm is dropped and the instance waits at the timer without a slot |
| Gaps.StrandedForGood | dsl/temporal.go:154-170 | From then on no sequence of events, wake-ups, compensations and restarts moves it; without compensations nothing is even logged |
| Gaps.TimersStrand | dsl/temporal.go:71-120 | A definition with two timers of ten time units each, where this happens |
| Temporal.WakeDue | dsl/temporal.go:154-170 | With a clock that has reached now each round leaves fewer due slots, no slot becomes due, slots are served by time and name, each one that was due at the start, and none is due on return; whatever is served was parked, by a record of the log, at a time from which the duration its node declares has passed |
| Replay.ApplyOcc | dsl/journal.go:241-337 | The in-place replay does to the fields what the specified effect of the record is, and rejects the same records |
| Replay.Rebuild | dsl/journal.go:386-388 | A fresh context with the log replayed into it is the fold |
| Replay.Recover | dsl/context.go:566-638 | A restored savepoint plus the records after it is the full fold, up to the live event and dropped dedup keys, and exactly it when the savepoint was |
| Replay.Resume | dsl/journal.go:403-410 | Resuming succeeds exactly when the log folds, and the resumed runtime continues the log |
| Replay.ResumeAt | dsl/replay.go:11-18 | The same from any earlier record; at a boundary the runtime is ready to go on |
| Outbox.MemoryExecutor.Handle | dsl/sideeffect.go:94-113 | A known id is skipped, an unknown kind refused for good, anything else performed and remembered |
| Outbox.DeliverMortal | dsl/runtime.go:909-933 | A delivery that dies after any step leaves journal and executor in agreement; it cuts the command off from its answer exactly when it dies right after the executor performed it |
| Outbox.Work | dsl/runtime.go:897-933 | A process that writes legal records and delivers commands, as any program decides, and dies after any step: journal and executor agree all the way |
| Outbox.Executed | dsl/sideeffect.go:94-113 | The executor of any reachable log, with any of the unanswered commands handed to it, agrees with the log |
| Outbox.Reload | dsl/manager.go:189-192 | A reload, itself mortal, dispatches what is unanswered and nothing else; one that lives leaves nothing and cuts nothing off |
| Outbox.PendingRemains | dsl/manager.go:189-192 | What the outbox view lists is what a reload may issue again |
| Outbox.ExactlyOnce | dsl/sideeffect.go:94-113 | Where journal and executor agree and all is answered, every issued command of a known kind was performed exactly once, and one of an unknown kind never |
| Outbox.Survive | dsl/manager.go:189-192 | From an empty journal and a new executor, through any number of processes that reload, work and die at any step, to one that lives through its reload: nothing is unanswered, every issued command of a known kind was performed exactly once, nothing else was; a performed command that declared an inverse has it in the log exactly when no death cut it off from its answer, which each process does to one at most |
| Session.CrashAnywhere | dsl/manager.go:189-192 | The same when the first process is the engine, in any run, and dies with any of its records the last one written, any of the unanswered commands handled; the answers written since tell skipped from completed by what was cut off |
| Outbox.InverseExact | dsl/compensate.go:29-44 | The declared inverse of an issued command is in the log exactly when its logged answer is completed |
| Outbox.StackedHasInverse | dsl/compensate.go:29-44 | Every entry of the undo stack is one of these inverses |
| Outbox.UndoneUnlessCut | dsl/sideeffect.go:94-113 | Once all is answered, a performed command that declared an inverse has it in the log exactly when no death fell between its performance and its answer |
| Outbox.LoseInverse | dsl/sideeffect.go:94-113 | A process that dies right after the executor performed a new command, and a reload: the command was performed once, is answered, and its inverse is neither in the log nor on the undo stack |
| Session.LoseInverseAt | dsl/sideeffect.go:94-113 | That can be done to every command with an inverse that any run of the engine sends |
| Gaps.RefundLost | dsl/compensate.go:29-44 | A definition that charges an account and declares the refund, run so: the charge has happened and its refund is lost |
| Stores.MemoryJournal.Append | dsl/journal.go:168-181 | Numbers the record and touches no other instance's records |
| Stores.MemoryJournal.MaxSeq | dsl/journal.go:184-188 | The number of the instance's last record |
| Stores.MemoryJournal.Load | dsl/journal.go:200-210 | The instance's records, in ascending order |
| Stores.MemoryStore.Create | dsl/store.go:111-119 | Refused, without a change, exactly when the id is taken |
| Stores.MemoryStore.ListWakeable | dsl/store.go:150-178 | Waiting rows whose wake-up has come, by instance id; all of them without a limit, that many in any map order with one |
| Manager.Manager.Load | dsl/manager.go:138-194 | Between operations: from the snapshot and the records after it, or from the whole journal, in either case the state that is the fold of the journal, ready to go on |
| Manager.Manager.LoadCrashed | dsl/manager.go:138-194 | After a death anywhere in an operation: the same context, and then every unanswered command is delivered again, each once; nothing else happens to the instance, and its journal has no unanswered command |
| Manager.Manager.Start | dsl/manager.go:254-291 | An unknown definition and a taken id leave no trace; otherwise the instance exists with its identity, in sync with its row |
| Manager.Manager.Feed | dsl/manager.go:294-308 | Terminal refusals are exactly those of terminal rows; refused events journal nothing, any other is the first record journalled; all other instances are untouched |
| Manager.Manager.Compensate | dsl/manager.go:349-363 | Every undo entry of the instance is done afterwards |
| Manager.Manager.Sync | dsl/manager.go:197-211 | The row is in sync again: it shows status, node and earliest wake-up of the fold of the journal; every snapshot stands for the records it covers, and no other instance is touched |
| Manager.Manager.MaybeSnapshot | dsl/manager.go:215-251 | A snapshot of the live state, up to the last record, is stored exactly when snapshots are on and there is none yet or as many records as the threshold came since; it stands for the records it covers; rows and other instances are untouched |
| Manager.RestoredMatches | dsl/manager.go:156-177 | A good snapshot and the records after it give a state that continues the log |
| Manager.SnapshotStays | dsl/manager.go:156-177 | A good snapshot stays good as the journal grows |
| Manager.Manager.ListDue | dsl/store.go:150-178 | Without a limit the rows listed are exactly those of waiting instances with a due slot in the fold of their journal |
| Manager.Manager.WakeOneInstance | dsl/manager.go:318-346 | One instance is woken exactly when a slot of it is due, and keeps none |
| Manager.Manager.WakeDueSweep | dsl/manager.go:318-346 | After a sweep without a limit no waiting instance keeps a due slot; a limit bounds how many are woken |
| Cycle.DetectCycleFirst | dsl/analyzer.go:155-216 | In any map order, nil exactly when no cycle goes through two or more distinct nodes; a report is such a cycle but for a node listed twice |
| Cycle.ReportedIsWalk | dsl/analyzer.go:155-216 | The report is itself a walk exactly when the doubled node has a self-loop |
| Cycle.DoubledInTwoCycle | dsl/analyzer.go:155-216 | Two nodes that lead to each other get a report that is no walk |
| Canonical.CanonicalJson | dsl/registry.go:175-214 | The bytes are a JSON text that denotes the value (RFC 8259), with the object members in byte order of their names, and depend on the value only, in every order the maps are walked |
| Canonical.SortedKeys | dsl/diff.go:193-200 | The keys once each in byte order |
| Canonical.SortedUnique | dsl/diff.go:193-200 | A key set has one such listing |
| Canonical.ValueUnique | dsl/registry.go:175-214 | A value can be read off the front of a text in one way only, at any depth |
| Canonical.Faithful | dsl/registry.go:160-214 | Values are equal exactly when their canonical bytes are |
| Canonical.EncodeDenotes | dsl/registry.go:175-214 | The canonical text is one of the texts that RFC 8259 gives the value |
| Canonical.StringReads | dsl/registry.go:175-214 | Every string is read back from its quoted text by the unescaping of section 7 of RFC 8259 |
| Marshal.FactReads | dsl/journal.go:82-142 | Occurrences can be read back from their JSON, omitted members included; the members that are not checked are one JSON value |
| Marshal.ActivationReads | dsl/activation.go:45-54 | The same for activation snapshots |
| Marshal.VersionReads | dsl/evidence.go:29-33 | The same for a version with its metadata; the body of the definition is one JSON value |
| Evidence.ExportChain | dsl/evidence.go:237-253 | A linked chain over exactly the given facts |
| Evidence.ExportHistory | dsl/evidence.go:72-100 | The registered versions of the definitions in key order, refused exactly when one is missing |
| Evidence.ExportEvidence | dsl/evidence.go:64-122 | Succeeds exactly on presentable inputs, with a valid bundle of exactly those versions and logs; each activation in it names a listed version with the hash of its canonical text, its proposer and its owner |
| Evidence.VerifyChain | dsl/evidence.go:255-276 | Accepts exactly linked chains with increasing numbers and gives their head |
| Evidence.VerifyDefinitions | dsl/evidence.go:157-176 | Accepts exactly strictly ordered, named versions with their own hashes |
| Evidence.VerifyEvidence | dsl/evidence.go:146-235 | Accepts exactly the valid bundles: linked chains, ordered definitions with their own hashes, and activations that name a listed version and say of it what the list says |
| Evidence.VerifiedMeaning | dsl/evidence.go:146-235 | Validity in both directions, entry by entry and member by member |
| Evidence.AlteredActivation | dsl/evidence.go:178-203 | An activation of which id, version, hash, proposer or owner was altered is rejected, whatever chains and root are recomputed over it |
| Evidence.EntryTextUnique | dsl/evidence.go:278-284 | The hashed text of an entry determines its fact and the hash before it |
| Evidence.RootTextUnique | dsl/evidence.go:286-293 | The hashed text of the root determines definitions, metadata, and count and head of both logs |
| Evidence.ChainBinding | dsl/evidence.go:255-300 | Chains with the same length and head are equal entry for entry, unless the digest collides on their own texts |
| Evidence.Binding | dsl/evidence.go:146-300 | Two valid bundles with one root hash are the same bundle, unless the digest collides on their own texts |
| Evidence.Repeatable | dsl/evidence.go:64-122 | A valid bundle is determined by its versions, in any order, and its logs |

## Left out

- The expression engine, type checker reflection, prompt rendering and the inference payload: arbitrary total functions of the configuration.
- SHA-256: an arbitrary digest of 64 characters. `Evidence.Binding` asks that it has no collision among the texts the two bundles hash, which is all a hash can promise.
- Canonical.StringReads: the reader takes the escapes the encoder writes; surrogate pairs, which it never writes, are not joined.
- JSON decoding of savepoints: a savepoint is taken to be decoded to what was encoded; evidence is read back from its JSON values (`Marshal`), not from malformed texts. Go's replacement of invalid UTF-8 when it escapes a string is not modelled; characters are code points.
- Locks, lock stripes and concurrency: one operation at a time per instance is the runtime's contract (dsl/runtime.go:57-60).
- Journal, store and sink errors: appends succeed. A crash inside an operation is modelled up to the reload (`Outbox`, `CrashAnywhere`, `LoadCrashed`). Feeding an instance that crashed inside a step loop afterwards is not: its status is still running, the checks of dsl/runtime.go:242-265 are skipped for it, so the gate is not asked there either; the other `Manager` operations start from whole ones.
- Timestamps of records (the record of a waiting slot carries the clock its due time was computed from, not the moment a little later at which it was written), tenants, the `Permanent` flag of results, execution reports and error texts: not compared.
- Ids and keys are tuples where the source joins strings with colons; two tuples that would be spelled alike are not considered. Slot names are spelled out where their order matters, and `NextUnique` and the order in `WakeDue` ask that they differ.
- Branch records are values; the moment between changing a branch in memory and journalling it is not visible, nor is aliasing between snapshots and live branches.
- Definitions are well formed: node ids are the map keys and not empty, inference nodes have their settings. The parser and the validator are not part of this model.
- `MaxNodeVisits` below zero, which turns the visit limit off: the termination of `Drain` rests on the limit.
- Temporal.WakeDue: takes a bound on its rounds, because with a clock behind `now` the source's loop need not end; with a clock that has reached `now` the bound is not felt.
- Feeding.FeedNode: a condition node whose inputs fail and that has no event route is a nil dereference in the source; here the branch fails.
- Manager.Manager.Feed: events have names, as snapshots of an unnamed live event cannot be told from none; the same goes for Manager.Manager.Start, whose execution id, a fresh UUID in the source, is a parameter.
- Manager.Manager.Start: auto-compensation is part of the configuration here; the manager switches it on regardless of its own field.
- Stores.MemoryStore.ListWakeable: follows the code, which sorts by instance id; its interface comment promises the order of the wake-ups.
- Cycle.DetectCycleFirst: the empty string is not a node id, as the search uses it for the missing parent.
- Dedup.Retained: for a clock that never shows the same time twice; equal times are evicted in any order.
- Activation ledger, registry listing, static checks other than cycles, diffs, comparisons, the simulator and the deprecated `Execute`: bookkeeping without an invariant of its own.
- Session.Run: after a restart during which an event without a name was live, the run goes on with the old runtime; what the resumed one looks like is in `Session.Reopen`.
- Marshal.FactReads: the members of an occurrence that the verifier does not look at are one JSON value; nil and empty maps, which Go writes alike, are not told apart there.
- The PostgreSQL store, the gateway, monitoring, scripts and wire definitions.
