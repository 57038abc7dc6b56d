# A verified model of the coding agent

The repository runs a coding agent: a loop that asks a model, executes tools in a workspace, records what each
turn changed so that it can be taken back, and shows its progress in a browser. This project models the parts whose
correctness spans many steps, and proves properties of them for all inputs, runs and interleavings.

- **Taking turns back** (`Paths`, `Artifacts`, `Changes`, `Checkpoint`, `CheckpointLaws`, `UndoLaws`, `Restorer`,
  `Collector`, `TurnCollector`, `CollectorLaws`, `TurnUndo`, `RecordedTurns`, `RecordedExamples`). The collector keeps the first and the
  last state of every changed path of a turn; the restorer turns recorded change sets into compare-before-write steps,
  rehearses, applies and rolls them back. A crash is any prefix of the steps, and other processes may change files
  between two steps. Main results: undo, crash-safe rollback and continuation with their exact conditions, no lost
  edit, preflight, exactness of the collector, and both halves composed: which recorded turns can be taken back.
- **The agent loop** (`Messages`, `Guards`, `Planning`, `PlanLaws`, `Agent`, `AgentSpec`, `AgentRules`, `AgentRuns`,
  `AgentGrowth`, `AgentPairing`, `AgentBound`, `Loop`). Model, tools, inbox and cancellation are arbitrary. Main
  results: termination with an arithmetic bound that is attained for all limits, call/result pairing at every request and at the end,
  the guards over whole runs, honest verification, paid budget extensions, and what only grows.
- **The transcript and its feed** (`Transcript`, `Projector`, `EventFeed`). The windowed, indexed projector refines a
  plain bounded list, and the version/acknowledgement handshake delivers every event exactly once, except behind a
  CLEAR that the feed cannot see.
- **The request view** (`Context`, `ContextLaws`, `ContextViews`, `Manager`). The three-phase compaction goes no
  further than needed, keeps the protocol and the protected messages, and fails exactly when it has to.
- **Streams** (`Streaming`, `Responses`, `StreamLaws`, `Delivery`, `TurnStream`). What adapter and accumulator make of
  a turn, and when that does not depend on how it was delivered.
- **Shared validation requests** (`Leases`) and **the message codec** (`Codec`).

Where the source changes objects step by step, a class with the same fields does so here, proved against functions on
plain values; the laws are lemmas about those functions. `dafny verify dfyconfig.toml` checks everything.

Conventions. A digest is the number that its hexadecimal text spells. `env` stands for other processes between two
atomic steps, `World` for every answer the loop waits for. Text operations of the host languages (trimming, case
folding, path case normalisation, hashing, blank tests, marker and attachment texts, byte and token estimates) are
parameters; the laws hold for all of them. The fixed messages that the loop writes into the history are short
placeholders, since only their kind and source matter. The fields of the agent loop are grouped into records by purpose,
and these also carry the logs that the theorems speak of (requests sent, signatures, dispatched calls, rounds,
effects). The size of a message in a request view is a parameter of the laws; the program's own measure is
`Context.Chars`.

## Model

| member | source | states |
|---|---|---|
| `UndoLaws.UndoTheorem` | src/coding_agent/checkpoints.py:47-119 | from truthful, complete change sets of consecutive turns, newest first, the plan has no change blocker and no conflict (so none at all when its paths do not collide, see BuildPlan), and applying it returns every path to its state before the oldest turn; byte for byte when the hash has no collisions |
| `UndoLaws.TimelineUndo` | src/coding_agent/checkpoints.py:157-206 | the steps planned for such a history chain up: each starts where its predecessors end, and together they lead back to the oldest workspace |
| `UndoLaws.CrashSafeRollback` | src/coding_agent/checkpoints.py:121-141 | stopped after any number of atomic steps, if no path has two steps still to come, rolling back the whole plan meets no conflict and restores exactly the workspace from before the operation |
| `UndoLaws.CrashSafeResume` | src/coding_agent/checkpoints.py:93-119 | if no path has had two steps already, running the whole plan again ends as if it had never been interrupted |
| `UndoLaws.RollbackConflictExample` | src/coding_agent/checkpoints.py:131-138 | the side condition is needed: a plan that takes one path through three states and stopped before its first step is refused with a recovery conflict |
| `UndoLaws.RollbackAgainIff` | src/coding_agent/conversations/service.py:2205-2235 | a rollback that was itself stopped after any number of steps and is run again, as after a restart, meets no conflict if and only if the steps already undone lead, on each of their paths, back to content at one end of the path's last step; it then restores the workspace from before the operation |
| `UndoLaws.CrashSafeRollbackAgain` | src/coding_agent/conversations/service.py:2205-2235 | in particular, when no path has two steps, a rollback may be stopped anywhere and run again |
| `UndoLaws.RollbackTwiceExample` | src/coding_agent/conversations/service.py:2205-2235 | the condition is needed: a plan that takes one path through three states, fully rolled back, is refused with a recovery conflict when the rollback is run again |
| `CheckpointLaws.ApplyExact` | src/coding_agent/checkpoints.py:93-119 | a run of a chained plan succeeds if and only if every planned path is at one end of its first step; it then shows the plan result on the planned paths and leaves all others alone |
| `CheckpointLaws.RollbackExact` | src/coding_agent/checkpoints.py:121-141 | a rollback succeeds if and only if every planned path is at one end of its last step; it then restores the planned paths and leaves all others alone |
| `UndoLaws.PreflightTheorem` | src/coding_agent/checkpoints.py:80-92 | a plan without blockers, applied to the unchanged workspace, completes, satisfies the final check, touches only planned paths, and the summary counts exactly the files really created, deleted and modified |
| `UndoLaws.RehearsalExact` | src/coding_agent/checkpoints.py:290-319 | the rehearsal on a virtual workspace reports no conflict if and only if the steps chain up from the present workspace, and then predicts the state of every path |
| `UndoLaws.NoLostEdit` | src/coding_agent/checkpoints.py:100-141 | whatever other processes do between the steps, a step only replaces content equal to its recorded state; a run that stops, stops in front of a file in neither recorded state and leaves it untouched |
| `UndoLaws.PlannedActionsAreReal` | src/coding_agent/checkpoints.py:463-484 | the action counted for a path is the difference between its state before and after the whole plan |
| `UndoLaws.PlanLandsOnReplay` | src/coding_agent/checkpoints.py:93-119 | applied to the workspace it was made for, a chained plan completes and lands exactly on its replay |
| `CheckpointLaws.ChainedConcat` | src/coding_agent/checkpoints.py:60-78 | plans of successive turns compose: the concatenation chains up exactly when the second starts where the first ends |
| `RecordedTurns.RecordedTurnsUndo` | src/coding_agent/changes/collector.py:88-361 | recording and restoring together, for any number of turns of honest tool calls that the collector recorded completely: going back to before each of them works (no blocker, no conflict, and the workspace from before that turn) if and only if every turn is revertible, that is, all its snapshots were stored, its folded renames landed, an old path that exists again sorts before the new one, and the recorded old paths are where the renamed files came from |
| `RecordedTurns.ReportedTurnUndoneIff` | src/coding_agent/changes/collector.py:88-361 | one turn: the steps made from its report are possible exactly when all snapshots were stored, its folded renames landed, old paths that exist again sort first and no two renames share one; they lead back to its start exactly when it is revertible |
| `RecordedTurns.AcceptedButWrong` | src/coding_agent/changes/collector.py:356-361 | every recorded turn whose steps are possible but which is not revertible is accepted and restored without any conflict, to a workspace that is not the one from before the turn |
| `RecordedExamples.ChainedRestoreExample` | src/coding_agent/changes/collector.py:356-361 | such a turn: two commands rename a file twice, and the accepted plan completes and leaves the file under the intermediate path |
| `RecordedExamples.TwoWrongsExample` | src/coding_agent/changes/collector.py:356-361 | two turns neither of which is revertible can be restored together by chance, although restoring the newer one alone is wrong |
| `TurnUndo.UndoneIff` | src/coding_agent/checkpoints.py:157-206 | for any entries that follow the files of the turn, the reported rows lead back to its start if and only if the snapshots were stored, the renames landed, old paths that exist again sort first, and the recorded old paths are the origins |
| `TurnUndo.AcceptedIff` | src/coding_agent/checkpoints.py:157-206 | they can be played back at all if and only if the snapshots were stored, the renames landed, old paths that exist again sort first, and the recorded old paths are pairwise different |
| `UndoLaws.UndoableRestores` | src/coding_agent/checkpoints.py:47-119 | turns whose rows can each be played back, newest first, give a plan without change blocker or conflict, and applying it lands on the workspace before the oldest |
| `Restorer.WorkspaceCheckpointRestorer.BuildPlan` | src/coding_agent/checkpoints.py:47-91 | steps, sorted affected paths and blockers of a plan; it is rehearsed only when no change set and no path collision blocks it, and otherwise lists exactly the change blockers followed by every collision |
| `Restorer.WorkspaceCheckpointRestorer.PathCollisionBlockers` | src/coding_agent/checkpoints.py:217-250 | a blocker for exactly the paths that share a case-normalised name with an earlier one and the pairs where one path lies inside the other |
| `Restorer.WorkspaceCheckpointRestorer.ValidatePlan` | src/coding_agent/checkpoints.py:290-319 | the conflicts of the rehearsal, in order |
| `Restorer.WorkspaceCheckpointRestorer.Apply` | src/coding_agent/checkpoints.py:93-119 | the loop carries out the specified run under interference and counts the distinct paths |
| `Restorer.WorkspaceCheckpointRestorer.Rollback` | src/coding_agent/checkpoints.py:121-141 | the loop carries out the specified rollback under interference and counts the paths it really wrote |
| `Restorer.WorkspaceCheckpointRestorer.VerifyApplied` | src/coding_agent/checkpoints.py:143-155 | accepts exactly when every planned path is at the target of its last step; an error names a path that is not |
| `Restorer.SummarizeActions` | src/coding_agent/checkpoints.py:463-484 | the three counts are the numbers of paths that the plan creates, modifies and deletes |
| `Restorer.NoCollisions` | src/coding_agent/checkpoints.py:217-250 | no collision blocker means that the paths are prefix-free and distinct after case normalisation |
| `Paths.NestedSortsLater` | src/coding_agent/checkpoints.py:238-249 | a nested path sorts after the path it lies in, so comparing each path with the later ones finds every nesting |
| `Artifacts.ArtifactStore.Put` | src/coding_agent/artifacts/store.py:46-74 | stores content under its own digest and keeps everything stored before; content over the limit is refused |
| `CollectorLaws.CollectorExact` | src/coding_agent/changes/collector.py:88-361 | over any run of honest tool calls, complete coverage at the end means that the report is exactly the difference between turn start and turn end if and only if every snapshot was stored, every folded rename still has its new path, its old path has not come back, and the recorded old paths are where the renamed files came from (up to files of equal content) |
| `CollectorLaws.RunFollowed` | src/coding_agent/changes/collector.py:88-129 | the invariant of the collector over any sequence of honest calls, with the origin of every folded entry followed through all folds: each entry holds the present state of its path and the first state of the path that its file came from, a path that a renamed file came from is gone or counts as created anew, and any other path without an entry is unchanged |
| `CollectorLaws.CallFollowed` | src/coding_agent/changes/collector.py:88-129 | every single honest call keeps that invariant as long as coverage stays complete |
| `CollectorLaws.ReportExact` | src/coding_agent/changes/collector.py:131-173 | for tracked entries, the reported rows describe the turn if and only if every snapshot was stored, every folded rename landed and no old path of one has come back |
| `CollectorLaws.CoalescedFollowed` | src/coding_agent/changes/collector.py:339-361 | folding unambiguous delete and create pairs into renames keeps it, also when a fold swallows an earlier rename |
| `CollectorLaws.OldsAreOriginsIff` | src/coding_agent/changes/collector.py:356-361 | the recorded old paths are the origins, up to files of equal content, if and only if they are pairwise different and each held the recorded first content at the start of the turn |
| `CollectorLaws.OriginsTrack` | src/coding_agent/changes/collector.py:356-361 | then old paths and origins are the same paths, so every entry speaks truly of the path that it names |
| `CollectorLaws.RestoredIsNotReported` | src/coding_agent/changes/collector.py:59-76 | a path whose content is the same at both ends of the turn is named by a row exactly when it is an end of a folded rename, or the origin of one |
| `CollectorLaws.ChainedRenameExample` | src/coding_agent/changes/collector.py:356-361 | a file renamed twice by two commands is reported as renamed from the intermediate path, so the report does not describe the turn |
| `CollectorLaws.RecreatedPathExample` | src/coding_agent/changes/collector.py:339-361 | a file renamed by a command and written anew under its old path is reported as a rename and a creation, so the report does not describe the turn |
| `TurnCollector.ToolChangeCollector.BeforeExecute` | src/coding_agent/changes/collector.py:88-109 | keeps the first snapshot of a written path, or the scan before a command, exactly as specified |
| `TurnCollector.ToolChangeCollector.AfterExecute` | src/coding_agent/changes/collector.py:111-129 | records the last state of a successful write, or the scanned differences of a command, exactly as specified |
| `TurnCollector.ToolChangeCollector.CoalesceDetectedRenames` | src/coding_agent/changes/collector.py:339-361 | the in-place loop over the digests leaves exactly the folded dictionary: unique delete and create pairs become one rename, ambiguous ones stay |
| `TurnCollector.ToolChangeCollector.Finalize` | src/coding_agent/changes/collector.py:131-173 | one row for exactly the paths with a net change, in order of their paths, in truth with their first and last snapshots; a snapshot is left out exactly when it is over what remains of the byte budget of the turn or too large for the store, an error means a spoiled copy in the store, and content stored before stays |
| `TurnCollector.KeptIff` | src/coding_agent/changes/collector.py:155-173 | every snapshot of the report is stored if and only if each is small enough and all together keep to the budget |
| `AgentRuns.RunIsBoundedAndPaired` | src/coding_agent/agent.py:229-310 | every run from any given history, whatever model, tools, steers and cancellation do, ends within hard + plan + finalization steps, with at most the allowed provider attempts per step and at most one steer per step, and in what the run added, every request it sent had each call answered right behind it by its results, in order |
| `AgentPairing.RequestsPairedIff` | src/coding_agent/agent.py:397-445 | a request of a run, as a whole, follows the call/result protocol if and only if the history that the run was given does |
| `AgentPairing.FinalHistoryPairedIff` | src/coding_agent/agent.py:279-310 | the history that a run leaves follows the protocol if and only if the given one does and the main loop did not find the run cancelled while calls of the model were still open |
| `AgentPairing.LastTurnPairedIff` | src/coding_agent/agent.py:279-310 | the last turn of the main loop leaves calls unanswered exactly when it finds the run cancelled right after an answer with calls or before their execution; no handler does |
| `AgentGrowth.RunIsShort` | src/coding_agent/agent.py:363-395 | sharper: no run takes more steps than base budget plus six increments, cut at the hard limit, plus plan and finalization steps |
| `AgentBound.BoundIsAttained` | src/coding_agent/agent.py:363-395 | for all limits under which a group of calls need not end the run, and any given history, a run takes exactly that many steps: all planning steps, then work with every extension when it is needed, then all finalization steps |
| `AgentPairing.SentViewPairedIff` | src/coding_agent/context.py:326-460 | what is really sent: the view that is built from any request of a run follows the protocol if and only if the history that the run was given does |
| `AgentRuns.RunIsGuarded` | src/coding_agent/agent.py:656-677 | dispatched calls never contain the abort number of equal signatures in a row; the run ends for repetition exactly when a call was stopped by the guard, and for failed rounds exactly when the trailing failed, undenied rounds reach the limit, and never later |
| `AgentRuns.RunIsHonest` | src/coding_agent/agent.py:777-826 | a final answer claims verification exactly when files were changed and the last verify command came after every write and exited with zero; unverified changes mean that the one reminder was sent or the work budget used up |
| `AgentRuns.RunPaysForExtensions` | src/coding_agent/agent.py:828-854 | at most one extension less than the plan has steps, each paid for by a newly completed plan step beyond the baseline, and never over the hard limit |
| `AgentGrowth.WholeRunGrows` | src/coding_agent/agent.py:328-333 | the history is only appended to, the tool-call count is the number of results in it, the budget is the base plus the extensions up to the hard limit, and completed plan steps stay completed |
| `AgentGrowth.RunGrows` | src/coding_agent/agent.py:565-775 | the same from any reachable state to the end of the run; moreover a run that is finalizing stays so, dispatches only plan updates and changes no more files |
| `AgentGrowth.CallsGrow` | src/coding_agent/agent.py:625-735 | the same over a group of calls: one result per counted call, and while finalizing only plan updates are dispatched |
| `AgentGrowth.RaisedIsCapped` | src/coding_agent/agent.py:828-842 | repeated capped increments add up to base plus increments, cut at the hard limit |
| `AgentRuns.RunStepKeeps` | src/coding_agent/agent.py:277-310 | every turn of the main loop keeps all rules of the reachable states (among them that outside a request the step count is the sum of the three counters), takes an allowed phase transition, and brings the end strictly nearer |
| `AgentRuns.RunEnds` | src/coding_agent/agent.py:279-310 | the run from any reachable state ends in a finished, reachable state |
| `AgentRuns.BegunIsValid` | src/coding_agent/agent.py:229-263 | any conversation starts in a reachable state, with the request appended unless it is already there |
| `AgentRules.ReadyKeeps` | src/coding_agent/agent.py:363-395 | the ready phase keeps the rules: budget decision, finalization limit, at most one steer, and one counted step |
| `AgentRules.RequestKeeps` | src/coding_agent/agent.py:397-486 | the request phase keeps the rules for every pattern of replies, retries, crashes and cancellations |
| `AgentRules.AttemptsKeep` | src/coding_agent/agent.py:402-445 | all provider attempts of a step stay within its room, and each is sent a history in which the run owes no result |
| `AgentRules.ExecuteKeeps` | src/coding_agent/agent.py:565-775 | the execution phase answers every call of the group exactly once and keeps the rules, whatever mix of bad ids, exhausted plan budget, denial, cancellation, repetition and execution occurs |
| `AgentRules.CallsKeep` | src/coding_agent/agent.py:625-735 | after each call exactly the later calls are unanswered; at the end of the group none is |
| `AgentRules.RefusedAllShape` | src/coding_agent/agent.py:956-963 | refusing the remaining calls pairs each with one error result and changes nothing but the history and the call count |
| `AgentRules.GroupDoneKeeps` | src/coding_agent/agent.py:737-775 | an aborted, interrupted or finished group ends the run for the right reason or leads back to ready |
| `AgentRules.CompletionKeeps` | src/coding_agent/agent.py:777-826 | the completion phase keeps the rules: steer first, one plan reminder, one verification reminder, and an honest final answer |
| `AgentRules.AnswerIsJustified` | src/coding_agent/completion.py:33-46 | the policy lets an answer end the run only with honest verification: unverified changes need the reminder sent or the work budget used up |
| `Messages.PairedIff` | src/coding_agent/agent.py:917-963 | the call/result automaton accepts exactly the histories in which every call has its result right behind the message, in order, and every result has its call |
| `Guards.RepeatCountIsTrailingBlock` | src/coding_agent/agent.py:994-999 | the repeat counter is the length of the trailing block of equal signatures |
| `Guards.NoBlockSnoc` | src/coding_agent/agent.py:656-672 | a counter below the abort number means that no block of that length has appeared |
| `Guards.FailuresSinceSuccess` | src/coding_agent/agent.py:761-774 | the failure counter counts the undenied rounds since the last success |
| `Guards.VerdictMeans` | src/coding_agent/agent.py:965-992 | the verification status is verified exactly when the last verify command came after every write and exited with zero |
| `Loop.AgentLoop.Run` | src/coding_agent/agent.py:229-310 | the main loop ends, for any given history, and its final state is that of the whole specified run; a refused start changes nothing |
| `Loop.AgentLoop.Step` | src/coding_agent/agent.py:279-310 | one turn of the loop changes the fields exactly as the step function says, faults included |
| `Loop.AgentLoop.HandleReady` | src/coding_agent/agent.py:363-395 | the ready handler against its function |
| `Loop.AgentLoop.HandleRequesting` | src/coding_agent/agent.py:397-486 | the request handler with its attempt loop against its function |
| `Loop.AgentLoop.HandleExecuting` | src/coding_agent/agent.py:565-775 | the execution handler against its function |
| `Loop.AgentLoop.CallAll` | src/coding_agent/agent.py:625-735 | the loop over the calls of a group against its function |
| `Loop.AgentLoop.HandleCompletion` | src/coding_agent/agent.py:777-826 | the completion handler against its function |
| `Loop.AgentLoop.PollSteer` | src/coding_agent/agent.py:335-359 | at most one waiting steer is claimed and appended, never when cancelled and never twice at one boundary |
| `Loop.AgentLoop.TryExtendStepBudget` | src/coding_agent/agent.py:828-854 | extends exactly below the hard limit, with an open plan and newly completed steps, and otherwise changes nothing |
| `Loop.AgentLoop.InvalidToolCalls` | src/coding_agent/agent.py:906-915 | marks exactly the calls whose id is empty or repeats an earlier one |
| `Loop.AgentLoop.RecordOutcomeEffects` | src/coding_agent/agent.py:965-992 | changed paths and verification status after one outcome |
| `Agent.InboxPort.PollSteer` | src/coding_agent/conversations/inbox.py:28-32 | hands out a steer only at a boundary later than the last one polled |
| `Planning.PlanLedger.Update` | src/coding_agent/planning.py:109-139 | accepts a proposal exactly when it is valid, a first plan is open and no completed step is lost; a rejected or unpersisted update changes nothing |
| `Planning.PlanLedger.ActiveStep` | src/coding_agent/planning.py:82-90 | there is a step in progress exactly while the plan is open |
| `Planning.PlanLedger.Finish` | src/coding_agent/planning.py:141-166 | the terminal state replaces the plan state; steps and revision stay |
| `Planning.ValidatePlan` | src/coding_agent/planning.py:169-223 | accepts exactly the proposals that meet the plan contract, and returns them normalised |
| `Planning.KeepsCompleted` | src/coding_agent/planning.py:119-130 | whether every completed step of the present plan is still completed in the next |
| `PlanLaws.PlanRunKeeps` | src/coding_agent/planning.py:109-139 | over any sequence of accepted, rejected and unpersisted updates completed steps only grow, the revision counts the accepted ones, and the plan contract holds |
| `PlanLaws.OpenPlanIsUnfinished` | src/coding_agent/planning.py:92-107 | an open plan has a step in progress, so at least one of its steps is not completed |
| `Projector.TranscriptProjector.ProjectEvent` | frontend/src/lib/toolgroups.ts:121-271 | one event changes the indexed window exactly as it changes the plain bounded list that finds rows by search, and keeps both index maps and the plan index right |
| `Projector.TranscriptProjector.Append` | frontend/src/lib/toolgroups.ts:112-119 | a batch changes the projector as the plain list says; events not newer than the last one are skipped |
| `Projector.TranscriptProjector.Reset` | frontend/src/lib/toolgroups.ts:94-110 | a reset shows what a fresh plain list shows for the same events, request and plan |
| `Projector.TranscriptProjector.Prune` | frontend/src/lib/toolgroups.ts:290-317 | drops the oldest rows over the cap, forgets what pointed at them, and compacts without changing what is shown |
| `Projector.TranscriptProjector.ProjectPlan` | frontend/src/lib/toolgroups.ts:273-288 | a newer plan replaces the visible card, or gets a new one when none is visible |
| `Projector.TranscriptProjector.VisibleItems` | frontend/src/lib/toolgroups.ts:82-92 | the newest items of the snapshot, without building it |
| `Projector.TranscriptProjector.Snapshot` | frontend/src/lib/toolgroups.ts:69-72 | the user message followed by the live rows |
| `Projector.TranscriptProjector.Bounded` | frontend/src/lib/toolgroups.ts:310-317 | the backing list stays below 4000 entries and at most one action is tracked per shown row |
| `Projector.SearchAgrees` | frontend/src/lib/toolgroups.ts:144-211 | the row index of a call is what a linear search through the live rows finds |
| `Projector.PlanSearchAgrees` | frontend/src/lib/toolgroups.ts:273-288 | the plan row index is what a linear search finds |
| `Projector.CompactedKeeps` | frontend/src/lib/toolgroups.ts:310-317 | cutting off the dead rows and shifting every index keeps the indexes right and the live rows unchanged |
| `Projector.WithoutOldestKeeps` | frontend/src/lib/toolgroups.ts:293-305 | dropping the oldest row together with what points at it keeps the indexes right |
| `Transcript.ResetIsTidy` | frontend/src/lib/toolgroups.ts:121-318 | after any events the transcript is within 2000 items and shows every call and the plan at most once |
| `Transcript.AppendConcat` | frontend/src/lib/toolgroups.ts:112-119 | how events are cut into batches does not matter |
| `Transcript.ReplayChangesNothing` | frontend/src/lib/toolgroups.ts:112-119 | events that were seen before change nothing |
| `EventFeed.ExactlyOnce` | frontend/src/lib/store.tsx:64-105 | under any interleaving of appends, resets, clears, renders and acknowledgements of rendered versions, a render whose feed can see that its frame is stale, if it is, shows what one projection of all events accepted since its frame would show, each id projected once; any other render leaves the frame stale |
| `EventFeed.ClearIsNoticedIff` | frontend/src/lib/store.tsx:86-115 | the first render after a CLEAR is a fresh frame if and only if the reset version applied before it is not the number of resets since; otherwise it goes on with the transcript from before the CLEAR |
| `EventFeed.ResetsAreNoticed` | frontend/src/components/ActivityFeed.tsx:93-98 | as long as nothing is cleared, every stale frame is noticed |
| `EventFeed.ClearMissedExample` | frontend/src/lib/store.tsx:112-113 | a page that rendered only reset version 0 keeps its old transcript over a CLEAR and skips events of the new run with lower ids |
| `EventFeed.TakeAllKeeps` | frontend/src/components/ActivityFeed.tsx:93-98 | the invariant behind it: rendering the waiting batch would show everything accepted, and a rendered version leaves nothing waiting |
| `EventFeed.RenderKeeps` | frontend/src/components/ActivityFeed.tsx:93-98 | a render, with or without a reset, brings the feed in step with the store, unless its frame is stale and the reset version does not show it |
| `EventFeed.SinceIsAccepted` | frontend/src/lib/store.tsx:66-85 | an event of a batch is accepted exactly when its id is above every id seen before |
| `EventFeed.SortByIdSorts` | frontend/src/lib/store.tsx:86-100 | a reset puts its events in order and loses none |
| `EventFeed.Collect` | frontend/src/lib/store.tsx:66-71 | collects exactly the events newer than the last id |
| `ContextViews.ViewShowsAll` | src/coding_agent/context.py:326-460 | every accepted view is within the character, byte and token limits and shows every message in its place behind at most the memory block, in full or as one of the two allowed reductions |
| `ContextViews.ProtectedStays` | src/coding_agent/context.py:329-351 | system and user messages, error results, the latest read of each file and the last two steps are shown verbatim |
| `ContextViews.ViewKeepsProtocol` | src/coding_agent/context.py:504-546 | roles, call ids, calls and continuations survive, so a view is well grouped exactly when the conversation is |
| `ContextLaws.NoFurtherThanNeeded` | src/coding_agent/context.py:353-420 | the compacted results are the shortest oldest-first prefix that fits; the memory block goes only when all of them do not fit with it and do without it; assistants are shortened only then, in order of saving and as few as possible |
| `ContextLaws.OverflowIff` | src/coding_agent/context.py:374-420 | the request overflows its character budget if and only if no number of compacted results fits, dropping the memory block after all of them does not fit, and shortening everything that saves does not fit |
| `ContextLaws.MemoryCouldHaveGone` | src/coding_agent/context.py:374-420 | an overflow does not mean that the memory block had to stay: a concrete conversation overflows although its fully shortened view without the block fits |
| `ContextLaws.CandidatesAreBySaving` | src/coding_agent/context.py:395-408 | assistants are shortened in order of what they save, the older first among equals |
| `ContextLaws.AllShortsFitBest` | src/coding_agent/context.py:408-417 | each shortened assistant makes the view no longer, so shortening all of them gives the smallest view |
| `Manager.ContextManager.BuildRequest` | src/coding_agent/context.py:326-460 | the loops build exactly the specified view; memory is asked for once and its use recorded once, with the first view that shows it |
| `Manager.SegmentSteps` | src/coding_agent/context.py:462-477 | one step for each assistant message with calls, holding exactly the results that follow it without interruption |
| `Manager.RecentIndices` | src/coding_agent/context.py:329-334 | exactly the messages of the last two steps |
| `Manager.LatestReads` | src/coding_agent/context.py:336-343 | finds exactly the newest successful read of each file |
| `Manager.CompactResults` | src/coding_agent/context.py:360-372 | compacts oldest first and stops at the first number of results that fits |
| `Manager.ShortenAssistants` | src/coding_agent/context.py:386-417 | shortens candidates while the view is over budget and skips those that save nothing |
| `Manager.Render` | src/coding_agent/context.py:504-546 | the rendered view, with attachments only on the newest message that has any |
| `StreamLaws.StreamGivesTurn` | src/coding_agent/model_client.py:524-758 | a stream that delivers a turn, item by item in any interleaving and chunking and with items of other kinds in between, gives exactly this turn: text and calls in the order of their output indexes, the streamed refusals in the order of their arrival, for each thought its deltas in the order of their arrival and then the parts that were not streamed, and continuations in the order in which thoughts were finished |
| `Delivery.DeliveryDoesNotMatter` | src/coding_agent/model_client.py:524-758 | faithful deliveries of the same turn, delta-only, final-only or mixed, with or without usage, are both refused or give the same turn, up to the order of the continuations |
| `Delivery.ReceivedIff` | src/coding_agent/model_client.py:524-758 | a delivered turn that has an answer is received as it was meant if and only if each thought was heard as the concatenation of its parts and the streamed refusals are the meant ones wherever the turn depends on them; a turn without an answer is always refused |
| `Delivery.OrderlyIsFaithful` | src/coding_agent/model_client.py:674-785 | it is received as it was meant when deltas belong to parts that the final object has, part indexes never decrease, streamed parts come before the others, and refusals are streamed whole and item by item |
| `Delivery.SummaryTracked` | src/coding_agent/model_client.py:738-752 | what is kept of the deltas of an accepted thought: all of them in the order of their arrival, and each part by itself to compare with the final object |
| `Delivery.ReasoningExact` | src/coding_agent/streaming.py:294-300 | no part of a thought is lost, so the joined reasoning is right exactly when every thought is |
| `Delivery.UnstreamedPartComesLast` | src/coding_agent/model_client.py:691-716 | a part that is left to the final object comes after the deltas of later parts |
| `Delivery.ExtraPartIsKept` | src/coding_agent/model_client.py:691-716 | deltas for a part that the final object does not have are kept, although the final item is accepted |
| `Delivery.FinalRefusalIsLost` | src/coding_agent/model_client.py:674-690 | a refusal that comes only with the final message is not looked for, and the stream is refused as empty |
| `Delivery.InterleavedRefusalsAreMixed` | src/coding_agent/streaming.py:244-248 | refusals of two items that take turns are heard in turns |
| `Delivery.DisagreementIsRefused` | src/coding_agent/model_client.py:624-710 | a final item that disagrees with what was streamed is refused |
| `Delivery.SummaryPartsKeepArrivalOrder` | src/coding_agent/model_client.py:775-785 | the deltas of all parts are handed on as part 0, so parts that arrive out of order stay out of order, although the final item is accepted |
| `StreamLaws.EventInStep` | src/coding_agent/model_client.py:524-752 | every event that fits its own item keeps adapter and accumulator in step with all items |
| `Delivery.DoneOrderIsBag` | src/coding_agent/model_client.py:690-734 | each finished thought hands on its continuation exactly once |
| `Streaming.TurnsAreComplete` | src/coding_agent/streaming.py:252-336 | every turn made from any stream has complete continuations, and calls with ids, names and arguments |
| `Streaming.ListingIsUnique` | src/coding_agent/streaming.py:278-300 | the sorted order of the buffers is determined by their keys alone |
| `TurnStream.TurnStreamAccumulator.AbsorbEvent` | src/coding_agent/streaming.py:178-276 | one event changes the buffers exactly as specified, or is refused and changes nothing |
| `TurnStream.TurnStreamAccumulator.MakeTurn` | src/coding_agent/streaming.py:302-336 | the turn of a completed stream, or the reason why there is none |
| `TurnStream.ResponsesStream.TranslateEvent` | src/coding_agent/model_client.py:546-752 | one provider event becomes the specified neutral events and adapter state |
| `TurnStream.Request` | src/coding_agent/model_client.py:488-492 | the loop over a whole response gives what adapter and accumulator together are specified to give |
| `Leases.LeasesAreSafe` | frontend/src/lib/workspaceValidation.ts:64-120 | under every interleaving, a request in flight is not aborted and counts its live leases (at least one), no live lease is on an aborted request, and a path never has two unfinished, unaborted requests |
| `Leases.StepsTouchTheirOwn` | frontend/src/lib/workspaceValidation.ts:64-120 | a request leaves the in-flight map only when that very request finishes or loses its last lease; only answers to unaborted requests are cached; a request is aborted only without live leases |
| `Leases.DoAllIsSafe` | frontend/src/lib/workspaceValidation.ts:64-120 | the invariant holds after every interleaving of acquire, release, response, completion and retry |
| `Leases.Registry.AcquireValidation` | frontend/src/lib/workspaceValidation.ts:64-105 | joins the request in flight or starts one, and counts the new lease |
| `Leases.Registry.ReleaseLease` | frontend/src/lib/workspaceValidation.ts:107-119 | the last release aborts the request; a repeated or outdated one changes nothing else |
| `Leases.Registry.OnResponse` | frontend/src/lib/workspaceValidation.ts:76-94 | an answer is cached exactly when it is a domain result and the request was not aborted |
| `Leases.Registry.OnFinally` | frontend/src/lib/workspaceValidation.ts:95-99 | a settled request removes only itself |
| `Codec.RoundTrip` | src/coding_agent/conversations/domain.py:159-341 | decoding an encoded message gives it back exactly when its attachments and continuations are complete, and refuses it otherwise |
| `Codec.DecodedIsStorable` | src/coding_agent/conversations/domain.py:223-341 | whatever decoding accepts can be encoded and decoded again unchanged |
| `Codec.EncodingIsInjective` | src/coding_agent/conversations/domain.py:159-220 | different storable messages are stored differently |
| `Codec.StreamedTurnsAreStorable` | src/coding_agent/conversations/domain.py:278-326 | the assistant message of any turn that the accumulator accepted survives being stored |
| `Codec.DecodeAllItems` | src/coding_agent/conversations/domain.py:247-320 | a list decodes exactly when every item does |
| `Codec.AttachmentsFrom` | src/coding_agent/conversations/domain.py:247-274 | the attachment loop against its specification |
| `Codec.ContinuationsFrom` | src/coding_agent/conversations/domain.py:291-320 | the continuation loop against its specification |

## Left out

- A rollback without any condition: the code does not offer it; `CheckpointLaws.RollbackExact` gives the exact condition, and `UndoLaws.RollbackConflictExample` a plan outside it.
- TurnCollector.ToolChangeCollector.Finalize: does not delete orphaned content from the store afterwards, as the source does.
- StreamLaws.StreamGivesTurn: events that come after the final object of their item are not among its streams.
- EventFeed.ExactlyOnce: ids are positive and increase within a batch, and an acknowledgement of a version rendered before a CLEAR arrives before it.
- ContextLaws.OverflowIff: speaks of the character budget; bytes and tokens are checked after the reductions and are abstract.
- Files are a flat map from paths to contents: directories, symbolic links, unreadable files and fsync are not modelled, and inspecting and writing a file is one atomic step.
- Collector: size limits of single snapshots and read failures, after which coverage is partial. Line counts, previews and binary detection are not modelled.
- Artifact store: the store is a map from digests to content; temporary files, deletion and listing are not modelled.
- Agent loop: events, sinks, the journal, the clock and the wording of errors; an exception inside a handler is a fault that ends the run.
- Tools: the executor is an oracle whose outcome answers its own call; the plan tool passes a proposal to the ledger.
- Plan ledger: the lock; persistence is a yes or no for each update.
- Transcript: rendering, scrolling and the live snapshot; the connection status and the cancel flags of the store.
- Request view: the count of omitted characters, the text of markers, and failures of the attachment loader.
- Streams: the HTTP client, the chat-completions adapter, cancellation in mid-stream, and the values of usage reports.
- Validation requests: timers, the published component state and path normalisation.
- Codec: JSON text, and the other records of the conversation store.
- Network retries and back-off times, profiles, credentials, redaction, the command line and the web server.
