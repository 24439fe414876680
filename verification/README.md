# Pausing, resuming and replaying: a verified model

This project models the parts of the agent runtime that have to stay right while a run is
interrupted: pipelines that pause for a human and are resumed from stored checkpoints, the
crumb log and the replay buffer that late readers depend on, loops whose iterations may
pause, the races and clean-ups around checkpoints, the publish order of the workspace and
the translation of crumbs into AG-UI events. `dafny verify dfyconfig.toml` checks all of it.

## How it is built

Each part has the same two layers. The code that works step by step (loops over steps,
maps and sets written in place, closures over mutable variables) is a class or a method in
the same form. Its `ensures` equates the new state with a function of the old one, or
states the outcome outright. The properties are lemmas about those functions, over every
input, every run or every interleaving.

- **Pipelines.** `PipelineModel` holds the step language (agent, map, decision, branch,
  parallel) and `Eval`, a plain recursive evaluator that never pauses. `PipelineMachine` is
  the runtime: a paused agent run is a checkpoint in a store, and the rest of the
  computation is the chain of frames it carries. `PipelineRunner.Runner` is the same in
  loops and assignments. A suspended pipeline is described by a tree of holes
  (`SuspendedTree`); `RunRefinement` shows that a run leaves such a tree, and
  `ResumeRefinement` that a resume takes one tree to the next without changing what it
  denotes. `PipelineMeaning`, `ResumesEnd`, `StepsOnce`, `StepIds`, `ParallelMerge` and
  `LeafSlots` state the results. `EvalLaws` says what plain evaluation promises of each kind of
  step, and `PipelineFailures` how a pipeline fails.
- **Crumbs.** `CrumbLog` is the sequencer and its aggregating windows together with the
  store's log; a timer may fire between any two calls. `ReplayBuffer` compares the bounded
  buffers with the full history, and `StreamTransport` adds subscribers. `CrumbWindows` says
  when the writer writes and what a read gives back.
- **Loops and checkpoints.** `LoopHosts` is the clean-up after a failure, `LoopLinks` the
  linking of hosts and workers while an iteration pauses again, `LoopNumbering` and `LoopOutcomes` the
  loop tools of one host run, `Claims` the race for one stored checkpoint, `Delegations` a
  supervisor waiting for several sub-runs.
- **Two smaller ones.** `PublishOrder` (with `NameOrder`), and `AgUiFraming` with
  `AgUiContent`. `Filters` says what it means to keep some elements of a list.

## Where the code falls short of the ideal

Four properties do not hold without a condition. For each there is a concrete input that
shows it, and the condition.

- A parallel slot that pauses again while a sibling slot waits gets a checkpoint id that no
  frame lists, so it is not told what the others end with; with two slots the step can be
  passed with `null` in the waiting slot's place (`ParallelMerge.RepauseLosesSlot`). Three
  exact conditions. When a slot ends, the waiting rows are told if and only if all of them are
  listed in that slot's frame, at any depth of nesting (`ParallelMerge.RightIffListed`), and
  the step is passed while another slot waits if and only if none of the listed rows is stored
  (`ParallelMerge.PassedEarlyIff`). Over whole runs of a step of agents, the output is right if
  and only if the slot that ends the step ends alone and never paused again beside a waiting
  one (`LeafSlots.LastSlotDecides`); the other slots may.
- The function `subscribe` returns may be called twice. The second call makes later
  subscribers of the run miss its next frame if and only if its own handler set is empty and
  the run has subscribers again (`StreamTransport.SecondUnsubscribe`, with a run in
  `DoubleUnsubscribeSilencesOther`).
- An `agent:error` crumb whose run id is the empty string leaves that run's message open
  (`AgUiFraming.ClosedAfterwards` is the exact statement, `EmptyRunIdStaysOpen` a stream).
  The crumb type admits the empty string; the runtime's own run ids are never empty.
- Discarding a model attempt while one of its loop calls still runs a pipeline frees the
  guard, and two iterations can then be open at once; this is so if and only if a pipeline
  was running at the reset (`LoopNumbering.ResetSafeIff`, with a run in
  `ResetInFlightOverruns`). Whether the model library lets that happen is outside the model.

A checkpoint that is saved again after its deletion can be won a second time
(`Claims.SavedAgainWonTwice`); the claim theorem says so in its condition.

## Model

| member | source | states |
|---|---|---|
| ResumesEnd.PausesPreserveMeaning | packages/core/src/pipeline.ts:61-677 | for every step list, agent outcome, pattern of pauses and order of resumes: whenever plain evaluation succeeds, the run has ended once as many resumes have been made as its agent runs pause in all, with the output, label and crumbs of plain evaluation and no row left behind; before that it has a stored checkpoint and has emitted nothing plain evaluation would not; it throws only where plain evaluation fails. Needed of each ending resume: rows waiting beside it in a parallel step are on its frame's list |
| ResumesEnd.RepausesAlonePreserveMeaning | packages/core/src/pipeline.ts:384-677 | the same under the documented limit alone: no slot pauses again beside a waiting one |
| ResumesEnd.ResumeSpends | packages/core/src/pipeline.ts:546-677 | each resume takes exactly one off the number of resumes the stored rows still need, and adds the pauses of the runs it begins |
| PipelineMeaning.PlayMeaning | packages/core/src/pipeline.ts:546-677 | any sequence of resumes from any suspended run carries its meaning: what was emitted plus what the remaining rows denote is unchanged |
| StepsOnce.FinishedStepsOnce | packages/core/src/pipeline.ts:69-231 | over the first run and all resumes, under careful resumes or the documented limit alone, each step on the path has one start and one end crumb with one run id, and every top-level step has them |
| StepsOnce.WaitingStepsOnce | packages/core/src/pipeline.ts:69-231 | under the same conditions, while the run waits no step has opened or closed twice |
| StepsOnce.EvalOnce | packages/core/src/pipeline.ts:69-231 | plain evaluation opens and closes each step once, and only steps numbered from the base on |
| StepIds.StepRunIdInjective | packages/core/src/pipeline.ts:235-237 | within one invocation the text of a step's run id determines the step, through arms, slots and continuations |
| StepIds.RunIdText | packages/core/src/pipeline.ts:235-237 | the text is the invocation, the pipeline's id and the index; arms and slots append to their pipeline's id |
| ParallelMerge.JoinPermuted | packages/core/src/pipeline.ts:350-363 | joining slot labels gives the same label, or a conflict, for every permutation |
| ParallelMerge.JoinMeaning | packages/core/src/pipeline.ts:350-382 | a conflict arises exactly when two slots brought different new labels; otherwise the one new label wins, or the incoming one stays |
| ParallelMerge.LastSlotMerges | packages/core/src/pipeline.ts:587-635 | while another slot waits, a slot's end only writes into the waiting rows; the last one closes the step with every slot's output at its own index |
| ParallelMerge.RightIffListed | packages/core/src/pipeline.ts:587-635 | for a parallel step anywhere in a suspended run: the waiting rows come to hold the ended slot's output and label if and only if all of them are on that slot's list. For a null output that brings no new label, the step goes on waiting as it should if and only if all are on the list or at least one listed row is still stored |
| ParallelMerge.PassedEarlyIff | packages/core/src/pipeline.ts:587-646 | while another slot waits, a slot's end goes past the step if and only if no row on its frame's list is stored; the step's end is then emitted with null in the waiting slot's place |
| LeafSlots.LastSlotDecides | packages/core/src/pipeline.ts:384-646 | for a parallel step of agents with outputs other than null, resumed in any order and pausing again at any time: no resume fails, and the step ends with the plain output if and only if the slot that ends it ends with no other waiting and never paused again while another waited |
| ParallelMerge.RepauseLosesSlot | packages/core/src/pipeline.ts:515-532 | a run in which a second pause beside a waiting sibling ends with null in that slot, where plain evaluation has its output |
| RunRefinement.RunRefines | packages/core/src/pipeline.ts:61-231 | a run ends as plain evaluation does, or leaves stored rows whose tree denotes exactly what is still to come |
| RunRefinement.RunStepRefines | packages/core/src/pipeline.ts:100-228 | the same for each kind of step |
| RunRefinement.RunParallelRefines | packages/core/src/pipeline.ts:384-539 | the same for a parallel step whose slots end, pause or throw in any mixture |
| ResumeRefinement.ResumeCarries | packages/core/src/pipeline.ts:546-677 | one resume of one row takes the suspended run to its end, to a failure, or to a smaller or re-paused one of the same meaning |
| PipelineModel.FindCase | packages/core/src/pipeline.ts:254-281 | the first case equal to the label, or none exactly when no case is |
| PipelineModel.ArmChosen | packages/core/src/pipeline.ts:254-281 | a branch takes the first case equal to the label it sees, the default exactly when no case is, and fails exactly when it has no path and no decision came before |
| EvalLaws.MapRunsOnEach | packages/core/src/pipeline.ts:124-149 | a map step gives each item of an array to its agent, once each, and collects the outputs at the items' places; it fails exactly when the agent does on one of them; a value that is no array is the one item |
| EvalLaws.StepsCompose | packages/core/src/pipeline.ts:69-231 | steps in a row: the second part starts from the value and label the first part ended with, and their crumbs add up |
| EvalLaws.AgentsAndDecisions | packages/core/src/pipeline.ts:104-158 | an agent step hands on its output and keeps the label; a decision step hands on the value it was given and sets the label |
| EvalLaws.BranchIsItsArm | packages/core/src/pipeline.ts:159-209 | a branch is the arm it takes: the same value, label and crumbs, and the note of the choice |
| EvalLaws.SlotsFail | packages/core/src/pipeline.ts:350-539 | a parallel step fails exactly when a slot does for itself or two bring different new labels |
| EvalLaws.SlotsShow | packages/core/src/pipeline.ts:350-539 | otherwise it shows each slot's own output at its own place, and the label is the new one a slot brings, or the incoming one |
| PipelineFailures.ParallelFailsAs | packages/core/src/pipeline.ts:447-499 | every slot is run whatever becomes of the others; the step then fails with the one error there is, or with the number of them, a label conflict counting once |
| PipelineFailures.StepFailsAs | packages/core/src/pipeline.ts:100-209 | the error each kind of step fails with |
| PipelineFailures.ResumeFailsAs | packages/core/src/pipeline.ts:587-606 | a missing row, a conflict with the siblings' label and sibling data never written are reported and the store is left as it is |
| PipelineRunner.Runner.RunPipeline | packages/core/src/pipeline.ts:61-231 | the loop over steps computes the machine's run |
| PipelineRunner.Runner.RunOneStep | packages/core/src/pipeline.ts:100-209 | the branch taken for each kind of step computes the machine's step |
| PipelineRunner.Runner.RunMap | packages/core/src/pipeline.ts:124-149 | the fan-out loop over items, started or picked up again |
| PipelineRunner.Runner.RunParallel | packages/core/src/pipeline.ts:384-539 | the slots, the collected errors and the filling in of sibling data |
| PipelineRunner.Runner.AmendRows | packages/core/src/pipeline.ts:515-532 | the loop that rewrites sibling rows and stops where labels clash |
| PipelineRunner.Runner.FindParallelFrame | packages/core/src/pipeline.ts:309-324 | walking out the chain finds the innermost frame of that parallel step |
| PipelineRunner.Runner.StillPending | packages/core/src/pipeline.ts:608-612 | the listed rows that are still stored, in order |
| PipelineRunner.Runner.ContinueParent | packages/core/src/pipeline.ts:546-677 | finishing one frame and popping to the next |
| PipelineRunner.Runner.CloseFrame | packages/core/src/pipeline.ts:637-677 | the due end crumb, the remaining steps numbered from the next index, then the outer frame |
| PipelineRunner.Runner.ResumeCheckpoint | packages/core/src/runner-resume.ts:39-373 | a resume of a pipeline's row: taken from the store, answered, continued |
| CrumbLog.TextConserved | packages/core/src/crumb-log.ts:134-219 | over any steps and timers, logged plus buffered text grows by exactly what was streamed, and the log only by entries above the counter |
| CrumbLog.BoundaryText | packages/core/src/crumb-log.ts:134-214 | logged text below the position of any non-delta crumb is the text streamed before it, whatever follows |
| CrumbLog.FinalText | packages/core/src/crumb-log.ts:160-219 | after the end of the stream the whole text is logged |
| CrumbLog.ReplayExact | packages/core/src/crumb-log.ts:165-214 | reading above a crumb's position gives what was logged from then on, in order |
| CrumbLog.ReplayText | packages/core/src/crumb-log.ts:165-219 | that read holds all text streamed from there on |
| CrumbLog.LaterIsAbove | packages/core/src/crumb-log.ts:171-213 | a logged crumb streamed later is in the final log strictly above every earlier position |
| CrumbLog.LaterWriterAbove | packages/core/src/crumb-log.ts:110-132 | a later writer seeded from the log only appends, strictly above every earlier entry, and the sorted read is the append order |
| CrumbLog.SortedRead | stores/memory/src/store.ts:282-286 | a log with growing positions reads back in append order |
| CrumbLog.MutedWritesNothing | packages/core/src/crumb-log.ts:103-108 | a relayed run, or one without a log, writes no entry |
| CrumbWindows.FlushAllWrites | packages/core/src/crumb-log.ts:134-162 | closing all windows writes one entry each, in opening order, with positions that go on from the counter |
| CrumbWindows.WholeWrites | packages/core/src/crumb-log.ts:193-213 | a crumb that is no delta closes all windows, takes the next position, and is written there exactly if its kind is logged |
| CrumbWindows.DeltaWrites | packages/core/src/crumb-log.ts:170-191 | a delta joins its window, which is written with all it holds exactly when it has reached the limit |
| CrumbWindows.TimerWrites | packages/core/src/crumb-log.ts:134-158 | a timer writes its own window, if open, and no other |
| CrumbWindows.WindowsStaySmall | packages/core/src/crumb-log.ts:170-191 | over any steps and timers no window comes to hold as much as the limit |
| CrumbWindows.SortedStable | stores/memory/src/store.ts:283 | any log is read in the order of its positions, entries at the same position in the order they were written |
| CrumbWindows.ReadExactly | stores/memory/src/store.ts:282-286 | a read gives the sorted rows strictly above the mark, and of these the first as many as the limit says; a limit of 0 counts as none |
| CrumbLog.MaxSeq | stores/memory/src/store.ts:288-292 | the highest position in the log, 0 for an empty one |
| CrumbLog.Writer.GetRun | packages/core/src/crumb-log.ts:110-132 | a run met for the first time starts at the highest stored position, 0 for an empty log, and with a view that the replay laws apply to; a known one is returned as it is |
| CrumbLog.Writer.FlushWindow | packages/core/src/crumb-log.ts:134-158 | closes one window into one entry with its own position; no other run changes |
| CrumbLog.Writer.FlushAllWindows | packages/core/src/crumb-log.ts:160-162 | every window, in the order they were opened |
| CrumbLog.Writer.Process | packages/core/src/crumb-log.ts:165-214 | the position given and the step taken for any crumb; a run's first crumb gets a position strictly above all that is logged of it (a delta one at least as high); logs that grow in position keep growing; a crumb without a run changes nothing |
| CrumbLog.Writer.FinalizeAll | packages/core/src/crumb-log.ts:216-219 | all windows of all runs |
| CrumbLog.Writer.GetMaxCrumbSeq | stores/memory/src/store.ts:288-292 | the reduce loop computes the maximum |
| ReplayBuffer.BufferRefinesHistory | packages/core/src/transport.ts:57-86 | tracked runs are the at most 1000 most recently published, in that order; each buffer is the last at most 1000 frames since the run was last admitted |
| ReplayBuffer.PublishRefines | packages/core/src/transport.ts:65-86 | each publish keeps that agreement with the history |
| ReplayBuffer.KeptExactly | packages/core/src/transport.ts:57-86 | a run is tracked exactly when it has been published and fewer than 1000 others have been since; its buffer is the last 1000 of its frames from the latest one on at which it was not tracked |
| StreamTransport.SubscriptionExact | packages/core/src/transport.ts:83-120 | until it unsubscribes a subscriber has had the retained frames of its run strictly above its mark, each as often as retained and in that order, then every later frame of the run, once and in order, and nothing else; others may unsubscribe again as long as that is harmless |
| StreamTransport.SilentAfterUnsubscribe | packages/core/src/transport.ts:116-119 | after it unsubscribes it gets nothing more |
| StreamTransport.SecondUnsubscribe | packages/core/src/transport.ts:83-119 | after any history: unsubscribing again makes some live subscriber miss the next frame of its run if and only if the set the closure holds is empty and the run has subscribers again; then all of them miss it |
| StreamTransport.DoubleUnsubscribeSilencesOther | packages/core/src/transport.ts:110-119 | a run in which a live subscriber misses a frame that way |
| StreamTransport.Transport.Touch | packages/core/src/transport.ts:65-78 | delete and re-insert, or admit and evict the least recent |
| StreamTransport.Transport.PublishFrame | packages/core/src/transport.ts:83-97 | buffer, trim, and one call to each handler of the run, whichever of them throw |
| StreamTransport.Transport.Replay | packages/core/src/transport.ts:100-108 | the retained frames above the mark, in order |
| StreamTransport.Transport.SubscribeTo | packages/core/src/transport.ts:99-115 | replay, then membership in the run's handler set |
| StreamTransport.Transport.Unsubscriber | packages/core/src/transport.ts:116-119 | removal from the set the closure holds, and of the run's entry when that set is empty |
| LoopHosts.Host.FailOpenLoops | packages/core/src/loop-host.ts:136-148 | deletes the ids, the hosts on the least chain above them, and the least further set of hosts all of whose children are gone; a running loop is failed exactly if it is given, a link on the chain names it, or a host deleted beyond the chain is of its session, agent and run; no other loop changes |
| LoopHosts.Host.CollectLoopChain | packages/core/src/loop-host.ts:153-181 | the links followed from one leaf, each once, cycles included |
| LoopHosts.Host.CollectHostsPendingOn | packages/core/src/loop-host.ts:183-213 | the growing loop ends at the least set closed under "every pending child is gone" |
| LoopHosts.Host.MarkLoopFailed | packages/core/src/loop-host.ts:215-219 | only a running loop is failed |
| LoopHosts.SurvivorsKeepAChild | packages/core/src/loop-host.ts:183-213 | after that cleanup no surviving host of the execution with a pending list has lost all its children |
| LoopHosts.DeletedExactly | packages/core/src/loop-host.ts:136-213 | what a cleanup deletes of the stored rows: the given ids, the hosts named by a link on the chain climbed from them over supervisors and links, and beyond these exactly the loop hosts of the execution whose every pending child is deleted, gone or of another execution |
| LoopHosts.CleanupDetermined | packages/core/src/loop-host.ts:136-213 | the store alone decides what a cleanup leaves of rows and loops: the order of its scans does not matter |
| LoopHosts.Host.DropPendingLoopHosts | packages/core/src/loop-host.ts:225-265 | the ids walked are exactly the least set onward from the worker's parent; every stored host among them keeps exactly its still-stored other children, or is deleted; no other row changes. The loop of a link of the walk to a deleted host no longer runs, and a loop changes only if such a link names it. The walk ends on cyclic links |
| LoopHosts.WalkIsReached | packages/core/src/loop-host.ts:225-265 | that set is what can be reached from the parent over supervisors and the hosts that links name |
| LoopHosts.HostKeepsExactly | packages/core/src/loop-host.ts:248-262 | a visited stored host goes exactly when no child but the failing one is stored; else it keeps those children in their order and all else it was |
| LoopHosts.DeletedHostStops | packages/core/src/loop-host.ts:257-259 | where each host stands for one loop, the loop of a deleted host no longer runs |
| LoopHosts.Host.DropOne | packages/core/src/loop-host.ts:248-262 | the decision for one host |
| LoopHosts.SiblingKeepsHost | packages/core/src/loop-host.ts:221-265 | a still-stored sibling keeps its host, its place in the list, and every loop that the walk's links name with that host only |
| LoopLinks.AttachKeepsOthers | packages/core/src/loop-host.ts:38-45 | only the outermost frame is written and never over another loop's link. A resumed worker finds the new link if and only if no inner frame has one and the outermost frame had none or one of the same loop, or the link it found before was equal to the new one; otherwise it finds the one it found before |
| LoopLinks.HostsAboveExact | packages/core/src/loop-host.ts:51-77 | the walk with its guard against cycles finds exactly the hosts reachable by climbing without one |
| LoopLinks.AboveIsNamed | packages/core/src/loop-host.ts:51-77 | these are the hosts a link names on the way up from the checkpoint, which goes to a row's supervisor or to its outermost link's host |
| LoopLinks.HostsPointAtStored | packages/core/src/loop-host.ts:79-109 | afterwards every waiting loop host above the leaf lists its still-stored, unreleased children in their order, then the leaf if it was not among them, and nothing else; no other row changes |
| LoopLinks.NoneOrphaned | packages/core/src/loop-host.ts:47-109 | when the released worker is deleted, none of those hosts has lost all children |
| LoopLinks.RetargetTwice | packages/core/src/loop-host.ts:51-109 | doing it again changes nothing |
| LoopLinks.Retargeter.RetargetLoopHostPending | packages/core/src/loop-host.ts:51-110 | the loop over the hosts computes that rewriting, and reports whether the stored leaf is below a host |
| LoopNumbering.NumberedAlways | packages/core/src/loop.ts:168-539 | over any calm run of starts, iterations, finishes, pauses, resumes, resets and failures: rows are 1..n, the stored count is n, n is at most max(1, maxIterations), at most one iteration is open, the runtime's cursor agrees with the store |
| LoopNumbering.HistoryKept | packages/core/src/loop.ts:168-539 | over any run, calm or not: loops are only added, rows only appended, and a loop that stopped running never runs again |
| LoopOutcomes.LoopsEndRight | packages/core/src/loop.ts:416-513 | over any calm run: a loop ended at the cap has had all its iterations and keeps their last output as its result, a completed one has a result, a running or failed one none |
| LoopOutcomes.CallsEndLoops | packages/core/src/loop.ts:416-491 | a finish completes the active loop with the given result or its last output, an iterate at the cap exhausts it with its last output, a refused call does nothing; no other loop changes |
| LoopOutcomes.RunEndsLoop | packages/core/src/loop.ts:494-513 | the run's end completes its loop with the last output, or fails it without a result; no other loop changes |
| LoopOutcomes.IterationWritten | packages/core/src/loop.ts:300-322 | an iteration's end, here or in a worker, writes one row with its number, its input and the raw output; the hook's replacement becomes the last output |
| LoopOutcomes.InputsGiven | packages/core/src/loop.ts:349-459 | the first iteration gets the call's input, a later one the last output, wrapped with the feedback when there is some |
| LoopOutcomes.RebuiltFrom | packages/core/src/loop.ts:168-197 | the cursor of a rebuilt runtime: the stored count, and the restored output, else the stored one, else the last row's |
| LoopOutcomes.ResetUndoes | packages/core/src/loop.ts:523-536 | a reset frees the guard and fails the loop the attempt started and left waiting, and no other |
| LoopNumbering.ResetSafeIff | packages/core/src/loop.ts:523-536 | two iterations can come to be open after a reset if and only if a pipeline was running at it |
| LoopNumbering.ResetInFlightOverruns | packages/core/src/loop.ts:523-536 | a run with a cap of one that writes two rows that way |
| LoopNumbering.RebuildRestores | packages/core/src/loop.ts:171-197 | a runtime rebuilt from the store has the cursor the host had when it paused |
| LoopNumbering.PausedIterationSame | packages/core/src/runner-resume.ts:378-402 | an iteration that pauses and is resumed leaves the loops and cursor of one that ends at once |
| LoopNumbering.Runtime.ClaimLoopCall | packages/core/src/loop.ts:218-227 | the guard is taken unless a call or a paused iteration holds it |
| LoopNumbering.Runtime.BuildLoopTools | packages/core/src/loop.ts:168-197 | the cursor made from the running loop's record |
| LoopNumbering.Runtime.StartLoop | packages/core/src/loop.ts:349-407 | refused, or a new numbered loop with its first pipeline running |
| LoopNumbering.Runtime.IterateLoop | packages/core/src/loop.ts:416-459 | refused, exhausted at the cap, or the next pipeline running with the steered input |
| LoopNumbering.Runtime.FinishLoop | packages/core/src/loop.ts:466-491 | closes the active loop with the given or last result |
| LoopNumbering.Runtime.FinalizeIteration | packages/core/src/loop.ts:300-322 | the row, the stored count and the cursor after an iteration |
| LoopNumbering.Runtime.SuspendIteration | packages/core/src/loop.ts:261-284 | the open iteration's link, with the guard still held |
| LoopNumbering.Runtime.CompleteLoopIteration | packages/core/src/loop.ts:76-125 | the row written under the number the iteration began with, and a rebuilt runtime |
| LoopNumbering.Runtime.FinalizeActive | packages/core/src/loop.ts:494-513 | the loop left open is closed with the run |
| LoopNumbering.Runtime.ResetAttempt | packages/core/src/loop.ts:523-536 | what a discarded attempt left open is undone |
| Claims.EveryRowAccounted | packages/core/src/runner-resume.ts:147-173 | over every interleaving: winners, rows thrown away unclaimed and a row still there add up to the rows ever created |
| Claims.OneWinner | packages/core/src/runner-resume.ts:147-173 | so at most one attempt passes the claim when the row is not saved again after deletion, and exactly one once it is gone and nobody threw it away |
| Claims.FirstToSettleWins | packages/core/src/runner-resume.ts:147-173 | an attempt's deciding step wins exactly when the row is there and unclaimed; the row is then claimed for a loop worker and gone for any other |
| Claims.ReleaseDiscardsNothing | packages/core/src/runner-resume.ts:176-207 | a winner's own clean-up never removes a row someone could still resume |
| Claims.SavingKeepsTheClaim | stores/memory/src/store.ts:171-185 | saving a claimed row does not free it |
| Claims.SavedAgainWonTwice | stores/memory/src/store.ts:171-193 | a row saved again after it was taken can be won twice |
| Claims.TakeCheckpoint | packages/core/src/runner-resume.ts:151-173 | claim for a loop worker, delete-if-unclaimed for any other |
| Claims.CheckpointStore.SaveCheckpoint | stores/memory/src/store.ts:171-174 | the row is there afterwards, claimed if it was; refused without an execution id |
| Claims.CheckpointStore.GetCheckpoint | stores/memory/src/store.ts:176-178 | the stored row, if there is one |
| Claims.CheckpointStore.ClaimCheckpoint | stores/memory/src/store.ts:180-185 | succeeds on a stored, unclaimed row only |
| Claims.CheckpointStore.DeleteCheckpoint | stores/memory/src/store.ts:187-193 | removes row and claim together, unless asked to spare a claimed one; no other row changes |
| Delegations.Bookkept | packages/core/src/runner-resume.ts:513-594 | over any run, for every supervisor: the calls it paused on are parted into those with one result each and those with one resumable checkpoint each, and it went on, once and after the last result, exactly when none waits |
| Delegations.OwnEnds | packages/core/src/runner-resume.ts:528-562 | the end of one sub-run answers its call and takes it off the waiting ones |
| Delegations.ResumeExactly | packages/core/src/runner-resume.ts:513-564 | a sub-run's end stores its output under its own call and leaves waiting exactly the entries of the other calls, or takes the supervisor and lets it go on when there is none; no other row changes |
| Delegations.PausesAgainKeeps | packages/core/src/runner-resume.ts:341-353 | a sub-run that pauses again keeps its call waiting under its new checkpoint |
| Delegations.Runner.ContinueSupervisorParent | packages/core/src/runner-resume.ts:513-564 | result stored at once; pending list shortened, or the supervisor taken and continued |
| Delegations.Runner.ResumeRun | packages/core/src/runner-resume.ts:39-173 | a missing row and a supervisor's own row are refused without effect |
| PublishOrder.TopoPublishOrder | scripts/lib/graph.ts:45-72 | for distinct names: a permutation with every workspace dependency before its dependent, in rounds sorted by name; or, exactly when there is a cycle, an error with the ascending names of packages that each depend on another of them. Stated of the graph and of the packages' own `deps` |
| PublishOrder.GraphEdges | scripts/lib/graph.ts:49-53 | a package needs exactly those of its dependencies that are packages of the workspace |
| PublishOrder.PublishReady | scripts/lib/graph.ts:63-69 | one round takes out exactly the ready packages and pushes them by name |
| NameOrder.SortedAscends | scripts/lib/graph.ts:63 | the sorted names are the names, once each and ascending |
| NameOrder.LeByFirstDifference | scripts/lib/graph.ts:63 | a name comes before another when it begins it or has the smaller character where they first differ |
| PublishOrder.StuckHasCycle | scripts/lib/graph.ts:58-62 | packages that each need another of them contain a cycle |
| PublishOrder.CycleHasNoOrder | scripts/lib/graph.ts:45-72 | with a cycle no order puts dependencies first |
| AgUiFraming.EveryMessageFramed | protocols/ag-ui/src/index.ts:132-287 | for any crumbs: each message id has one START, then its CONTENTs, at most one END and nothing after, and shares its number with no tool result |
| AgUiFraming.OneOpenPerRun | protocols/ag-ui/src/index.ts:200-210 | at most one message of a run is open |
| AgUiFraming.ClosedAfterwards | protocols/ag-ui/src/index.ts:162-198 | after a run's end, pause, error or streamed tool call none is open, but for an error whose run id is the empty string |
| AgUiFraming.EmptyRunIdStaysOpen | protocols/ag-ui/src/index.ts:193-198 | a delta of the run with the empty id and then its error: the message is still open |
| AgUiFraming.MessagesEndFirst | protocols/ag-ui/src/index.ts:162-181 | when a run is reported finished, its message has already been ended |
| AgUiFraming.TextKept | protocols/ag-ui/src/index.ts:200-210 | a run's CONTENT deltas are its text deltas, in order |
| AgUiFraming.CallAlone | protocols/ag-ui/src/index.ts:212-257 | each tool call is translated by itself, whatever is woven through it |
| AgUiFraming.CallFramedOnce | protocols/ag-ui/src/index.ts:212-257 | a call streamed and then sent whole, or only sent whole, is shown with one start, its arguments and one end |
| AgUiFraming.CallsHangUnderTheLast | protocols/ag-ui/src/index.ts:212-256 | the parent of a tool call is the message ended just before its start |
| AgUiContent.CallUnderOpenMessage | protocols/ag-ui/src/index.ts:212-256 | a call is started under the message open in its run, or under none when none is |
| AgUiContent.EndsOnlyWhereItMust | protocols/ag-ui/src/index.ts:155-287 | an open message ends exactly at its run's end, pause, error with a run id, or the start of one of its calls |
| AgUiContent.AnnouncedInOrder | protocols/ag-ui/src/index.ts:155-287 | run starts and ends, errors, files, tool results and other crumbs reach the client once each and in order, and nothing else does |
| AgUiFraming.IdTextInjective | protocols/ag-ui/src/index.ts:204 | message ids with the same text are the same |
| AgUiFraming.Transformer.CloseMessage | protocols/ag-ui/src/index.ts:141-147 | the open message, if any, is ended and forgotten |
| AgUiFraming.Transformer.Transform | protocols/ag-ui/src/index.ts:155-287 | the events and the new state for each crumb |

## Left out

Pipelines:

- The model stream and the agent's own tools. A leaf agent is an oracle: it pauses a given number of times and then ends with one output or throws.
- Slots of a parallel step overlap in the source; here they are run one after another, and the order of crumbs is forgotten (a multiset). Concurrent resumes of sibling slots are excluded, as the source's own comment says.
- RunRefinement.RunParallelRefines: interleavings of the slots' work are not covered; the slots run in list order.
- PipelineRunner.Runner.RunParallel: the same, one slot is drained before the next starts.
- PipelineRunner.Runner.FindParallelFrame: the walk ends at the last pipeline frame and does not go on into a loop host's own chain.
- PipelineRunner.Runner.ResumeCheckpoint: the refusal of supervisor rows (see `Delegations`), of loop-host rows and of rows without execution id, and the claim of a loop worker's row (see `Claims`), are not part of it.
- LeafSlots.LastSlotDecides: the step is the whole pipeline and its slots are agents that do not throw; an output of null cannot be told from one that is missing.
- Stored checkpoints are immutable values; two rows that share a frame object in memory are not modelled.
- The decision host and the dotted-path read of a branch step are functions given from outside. Hooks, principals, skills beyond the call, and abort signals are not modelled.
- `hostLoop` and supervisor links inside frames, and closing a loop when the remaining steps throw, are not part of the pipeline theorems; loops have their own model.
- A frame is found by invocation, pipeline path and step index; the source compares pipeline id and step index only, which is the same within one checkpoint chain.

Crumbs:

- Failed store writes and the disabling of a run's log. The append chain is taken to be drained in order; calls to `process` come one after another.
- Wire encoding of crumbs and errors, the bus, and HTTP transports.
- Handlers that publish or subscribe while they are being called. Each subscription brings a handler of its own.

Loops and checkpoints:

- `locateLoopPipelineCheckpoint`, which only chooses where the link is attached.
- LoopHosts.Host.DropPendingLoopHosts: assumes that pending lists name leaf checkpoints and that supervisors are not loop hosts; a frame is reduced to its host link.
- LoopHosts.Host.DropOne: under the same assumptions as `DropPendingLoopHosts`.
- The entries of a pending list are reduced to the checkpoint they name; tool-call ids appear in the delegation model only.
- LoopNumbering.NumberedAlways: writing a row and the loop's count is one step. Store failures between the two are left out, and so are hooks other than the replacement of an iteration's output.
- The cap is the same for the whole run; a configuration changed between two resumes is not modelled.
- A supervisor that pauses again after it continued is a new pause in the delegation model. Supervisors that delegate to supervisors, and concurrent resumes of sibling delegations, are left out.
- The claim race is about one row; crashes between two store calls are left out.

The rest:

- Names are compared by character; UTF-16 code units order characters beyond the basic plane differently.
- `findLeftBehind`, version ranges and the reading of manifests.
- AG-UI step and snapshot events are carried through as notes; the HTTP route, the request parser and JSON text are left out.
- The memory store's sessions, messages, knowledge graph and listings; real clocks and UUIDs.
- HTTP servers, authentication, the CLI, the orb renderer, document fetching and the documentation site.
