/** The loop object: its handlers change the fields exactly as the state functions say, and its run is the whole run. */
module Loop {
  import opened Results
  import opened Messages
  import opened Planning
  import opened Guards
  import opened Agent
  import S = AgentSpec
  import R = AgentRules
  import Runs = AgentRuns

  class AgentLoop {
    const limits: Limits
    const world: World
    const plan: PlanLedger
    const inbox: InboxPort
    const hasInbox: bool

    var phase: Phase
    var tally: S.Tally   // step counters, budgets, provider attempts
    var talk: S.Talk     // the history, the reminders sent, the last answer, the pending calls
    var watch: S.Watch   // repeat and failure guards
    var proof: S.Proof   // verification status and changed paths
    var extensions: nat
    var completedAtLastExtension: nat
    var baselineInitialized: bool
    var toolCallCount: nat
    var end: Option<S.End>
    var clock: nat       // the next moment at which the world is asked

    // For the theorems only: what the ledger held at first, the progress that earns nothing, the steers delivered.
    ghost const earlier: Option<PlanSnapshot>
    ghost var baseline: nat
    ghost var steers: nat

    constructor (limits: Limits, world: World, plan: PlanLedger, inbox: InboxPort, hasInbox: bool)
      requires limits.Valid() && inbox.lastBoundary == 0
      ensures this.limits == limits && this.plan == plan && this.inbox == inbox && earlier == plan.snapshot
      ensures State() == Runs.Begun(Env(), Runs.Turn([], "", "", true)).(phase := Initializing)
    {
      this.limits, this.world, this.plan, this.inbox, this.hasInbox := limits, world, plan, inbox, hasInbox;
      phase, end, clock, toolCallCount := Initializing, None, 0, 0;
      tally := S.Tally(0, 0, 0, 0, limits.baseMaxSteps, 0, false, false, false);
      talk := S.Talk([], [], 0, false, false, None, []);
      watch := S.Watch(None, 0, [], [], 0, []);
      proof := S.Proof(NotApplicable, map[], []);
      extensions, completedAtLastExtension, baselineInitialized := 0, plan.CompletedStepCount(), plan.snapshot.Some?;
      earlier, baseline, steers := plan.snapshot, plan.CompletedStepCount(), 0;
    }

    // -------------------------------------------------------------- the state as a plain value

    ghost function Env(): S.Env {
      S.Env(limits, world, hasInbox, plan.text, earlier)
    }

    ghost function Credited(): S.Credit
      reads `extensions, `completedAtLastExtension, `baselineInitialized, `baseline, plan
    {
      S.Credit(extensions, completedAtLastExtension, baselineInitialized, baseline, plan.snapshot)
    }

    ghost function State(): S.LoopState
      reads this, plan, inbox
    {
      S.LoopState(phase, tally, talk, watch, proof, Credited(), toolCallCount, clock, inbox.lastBoundary, steers, end)
    }

    // -------------------------------------------------------------- small steps

    method Cancelled() returns (b: bool)
      modifies `clock
      ensures b == world.cancelled(old(clock)) && clock == old(clock) + 1
    {
      b := world.cancelled(clock);
      clock := clock + 1;
    }

    method Transit(target: Phase)
      requires target in Allowed(phase)
      modifies `phase
      ensures phase == target
    {
      phase := target;
    }

    method AppendHistory(m: Message)
      modifies `talk
      ensures talk == old(talk).(history := old(talk).history + [m])
    {
      talk := talk.(history := talk.history + [m]);
    }

    method Finish(status: RunStatus, reason: StopReason, text: Option<string>)
      requires Working(phase) && end.None? && plan.Valid()
      modifies `end, `phase, plan
      ensures plan.Valid() && State() == S.Finished(old(State()), status, reason, text)
    {
      end := Some(S.End(status, reason, text));
      plan.Finish(status);
      if status.RunInterrupted? {
        Transit(Interrupted);
      } else {
        Transit(Terminal);
      }
    }

    /** Claims at most one pending steer; cancellation always wins. */
    method PollSteer() returns (delivered: bool)
      modifies `clock, `talk, `steers, inbox
      ensures S.Polled(State(), delivered) == S.Poll(Env(), old(State()))
    {
      delivered := false;
      if !hasInbox {
        return;
      }
      var stop := Cancelled();
      if stop {
        return;
      }
      var item := inbox.PollSteer(tally.steps, world.steer(clock));
      clock := clock + 1;
      if item.None? {
        return;
      }
      var mine := world.claimed(clock);
      clock := clock + 1;
      if !mine {
        return;
      }
      AppendHistory(S.Note(item.value.content, "steer"));
      steers := steers + 1;
      delivered := true;
    }

    /** Extends only when a live plan has made new milestone progress. */
    method TryExtendStepBudget() returns (extended: bool)
      modifies `tally, `completedAtLastExtension, `extensions
      ensures extended <==> S.CanExtend(limits, old(tally), old(Credited()))
      ensures State() == if extended then S.Extended(Env(), old(State())) else old(State())
    {
      var completed := plan.CompletedStepCount();
      if tally.budget >= limits.hardMaxSteps || !plan.NeedsCompletionUpdate() || completed <= completedAtLastExtension {
        return false;
      }
      var raised := tally.budget + limits.stepBudgetIncrement;
      tally := tally.(budget := if raised <= limits.hardMaxSteps then raised else limits.hardMaxSteps);
      completedAtLastExtension := completed;
      extensions := extensions + 1;
      extended := true;
    }

    method BeginFinalization()
      modifies `tally, `talk
      ensures State() == S.Finalizing(old(State()))
    {
      tally := tally.(finalizing := true);
      AppendHistory(S.Note("finalize", "step_budget"));
    }

    // -------------------------------------------------------------- handlers

    /** Safe point one, the budget decision, and the request view. */
    method HandleReady() returns (fault: Option<StopReason>)
      requires phase == Ready && end.None? && plan.Valid()
      modifies this, plan, inbox
      ensures plan.Valid() && S.Handled(State(), fault) == S.ReadyStep(Env(), old(State()))
      ensures fault.Some? ==> end.None? && Working(phase)
    {
      fault := None;
      var _ := PollSteer();
      if tally.finalizing {
        if tally.finalization >= limits.finalizationSteps {
          Finish(RunError, MaxSteps, None);
          return;
        }
      } else if tally.work >= tally.budget {
        var extended := TryExtendStepBudget();
        if !extended {
          BeginFinalization();
        }
      }
      fault := BuildRequest();
    }

    method BuildRequest() returns (fault: Option<StopReason>)
      requires phase == Ready
      modifies `clock, `tally, `phase
      ensures S.Handled(State(), fault) == S.Viewed(Env(), old(State()))
      ensures fault.Some? ==> phase == Ready
    {
      var built := world.view(clock);
      clock := clock + 1;
      if built.TooLarge? {
        return Some(ContextOverflow);
      }
      if built.BuildCrashed? {
        return Some(InternalError);
      }
      tally := tally.(steps := tally.steps + 1, requestIsFinalization := tally.finalizing);
      if tally.requestIsFinalization {
        tally := tally.(finalization := tally.finalization + 1);
      }
      Transit(Requesting);
      fault := None;
    }

    /** Up to the allowed number of provider attempts, then the answer is counted and recorded. */
    method HandleRequesting() returns (fault: Option<StopReason>)
      requires phase == Requesting && end.None? && plan.Valid()
      modifies this, plan
      ensures plan.Valid() && S.Handled(State(), fault) == S.RequestStep(Env(), old(State()))
      ensures fault.Some? ==> end.None? && Working(phase)
    {
      var turn: Option<AssistantTurn> := None;
      ghost var asked := S.Attempts(Env(), State(), 1);
      for attempt := 1 to limits.maxProviderAttempts + 1
        invariant phase == Requesting && end.None? && plan.Valid() && turn.None?
        invariant S.Attempts(Env(), State(), attempt) == asked
      {
        var again;
        turn, fault, again := RequestOnce(attempt);
        if end.Some? || fault.Some? {
          return;
        }
        if !again {
          break;
        }
      }
      Conclude(turn);
      fault := None;
    }

    /** One provider attempt: an answer, an error to try again after, or the end of the run. */
    method RequestOnce(attempt: nat) returns (turn: Option<AssistantTurn>, fault: Option<StopReason>, again: bool)
      requires phase == Requesting && end.None? && plan.Valid()
      modifies `clock, `tally, `talk, `end, `phase, plan
      ensures plan.Valid() && (end.None? ==> phase == Requesting) && (again ==> turn.None?)
      ensures S.AttemptOnce(Env(), old(State()), attempt) ==
        if end.Some? then S.Over(State())
        else if fault.Some? then S.Crashed(State())
        else if again then S.Retry(State())
        else if turn.Some? then S.Answer(State(), turn.value)
        else S.Silent(State())
      ensures fault.Some? ==> fault.value == InternalError && end.None?
    {
      turn, fault, again := None, None, false;
      var stop := Cancelled();
      if stop {
        Finish(RunInterrupted, UserInterrupt, None);
        return;
      }
      CountAttempt();
      var reply := world.reply(clock);
      clock := clock + 1;
      match reply
      case Replied(answer) =>
        turn := Some(answer);
      case RequestCrashed =>
        fault := Some(InternalError);
      case RequestFailed(retryable) =>
        again := GiveUpOrRetry(retryable, attempt);
    }

    method CountAttempt()
      modifies `tally, `talk
      ensures State() == S.Attempted(old(State()))
    {
      tally := tally.(attempts := tally.attempts + 1);
      talk := talk.(requests := talk.requests + [talk.history]);
    }

    method GiveUpOrRetry(retryable: bool, attempt: nat) returns (again: bool)
      requires phase == Requesting && end.None? && plan.Valid()
      modifies `clock, `end, `phase, plan
      ensures plan.Valid() && (again <==> end.None?) && (end.None? ==> phase == Requesting)
      ensures S.AfterFailure(Env(), old(State()), retryable, attempt) ==
        if again then S.Retry(State()) else S.Over(State())
    {
      var stopped := Cancelled();
      if stopped {
        Finish(RunInterrupted, UserInterrupt, None);
        return false;
      }
      if !retryable || attempt >= limits.maxProviderAttempts {
        Finish(RunError, ModelError, None);
        return false;
      }
      again := true;
    }

    /** The answer arrived, or all attempts are spent. */
    method Conclude(turn: Option<AssistantTurn>)
      requires phase == Requesting && end.None? && plan.Valid()
      modifies this, plan
      ensures plan.Valid()
      ensures S.Handled(State(), None) ==
        S.Concluded(Env(), if turn.Some? then S.Answer(old(State()), turn.value) else S.Silent(old(State())))
    {
      var late := Cancelled();
      if late {
        Finish(RunInterrupted, UserInterrupt, None);
        return;
      }
      if turn.None? {
        Finish(RunError, ModelError, None);
        return;
      }
      RecordAnswer(turn.value);
    }

    method RecordAnswer(turn: AssistantTurn)
      requires phase == Requesting
      modifies `tally, `talk, `phase
      ensures State() == S.Recorded(Env(), old(State()), turn)
    {
      if !tally.requestIsFinalization {
        if PlanOnly(turn.toolCalls) {
          tally := tally.(plan := tally.plan + 1);
          if tally.plan > limits.maxPlanSteps {
            tally := tally.(planExceeded := true);
          }
        } else {
          tally := tally.(work := tally.work + 1);
        }
      }
      AppendHistory(AssistantMessage(turn.text, turn.toolCalls, turn.reasoning, turn.continuations));
      talk := talk.(answer := Some(turn));
      Transit(Handling);
    }

    method HandleResponse()
      requires phase == Handling && end.None? && talk.answer.Some? && plan.Valid()
      modifies this, plan
      ensures plan.Valid() && State() == S.ResponseStep(Env(), old(State()))
    {
      var turn := talk.answer.value;
      if turn.toolCalls == [] {
        if world.blank(turn.text) {
          Finish(RunError, ProtocolError, None);
          return;
        }
        Transit(Checking);
        return;
      }
      talk := talk.(pending := turn.toolCalls);
      Transit(Executing);
    }

    /** Ids must be non-empty and unique within the turn. */
    static method InvalidToolCalls(calls: seq<ToolCall>) returns (bad: seq<bool>)
      ensures |bad| == |calls| && forall i :: 0 <= i < |calls| ==> (bad[i] <==> BadId(calls, i))
    {
      var seen: set<string> := {};
      bad := [];
      for i := 0 to |calls|
        invariant |bad| == i && forall j :: 0 <= j < i ==> (bad[j] <==> BadId(calls, j))
        invariant forall id :: id in seen <==> id != "" && exists j :: 0 <= j < i && calls[j].id == id
      {
        bad := bad + [calls[i].id == "" || calls[i].id in seen];
        if calls[i].id != "" {
          seen := seen + {calls[i].id};
        }
      }
    }

    method AppendErrorResult(call: ToolCall, code: string)
      modifies `toolCallCount, `talk
      ensures State() == S.Refused(old(State()), call, code)
    {
      toolCallCount := toolCallCount + 1;
      AppendHistory(ErrorResult(call, code));
    }

    /** Pairs every call with an error result. */
    method RefuseAll(calls: seq<ToolCall>, codes: seq<string>)
      requires |calls| == |codes|
      modifies `toolCallCount, `talk
      ensures State() == S.RefusedAll(old(State()), calls, codes)
    {
      for i := 0 to |calls|
        invariant S.RefusedAll(State(), calls[i..], codes[i..]) == S.RefusedAll(old(State()), calls, codes)
      {
        assert calls[i..][1..] == calls[i + 1..] && codes[i..][1..] == codes[i + 1..];
        AppendErrorResult(calls[i], codes[i]);
      }
    }

    method AppendRemainingAborted(calls: seq<ToolCall>)
      modifies `toolCallCount, `talk
      ensures State() == S.AbortedAll(old(State()), calls)
    {
      RefuseAll(calls, seq(|calls|, i => "ABORTED_BEFORE_DISPATCH"));
    }

    method UpdateRepeat(signature: string)
      modifies `watch
      ensures watch == S.Watched(old(watch), signature)
    {
      if Some(signature) == watch.lastSignature {
        watch := watch.(repeatCount := watch.repeatCount + 1);
      } else {
        watch := watch.(lastSignature := Some(signature), repeatCount := 1);
      }
      watch := watch.(signatures := watch.signatures + [signature]);
    }

    method RecordOutcomeEffects(effect: Effect)
      modifies `proof
      ensures proof == S.Proved(old(proof), effect)
    {
      proof := proof.(effects := proof.effects + [effect]);
      if !effect.ok || effect.data.None? {
        return;
      }
      var data := effect.data.value;
      if effect.toolName == "write_file" || effect.toolName == "edit_file" {
        if data.path != "" {
          proof := proof.(mutated := proof.mutated[data.path := data.fingerprint]);
        }
        proof := proof.(verification := NotRun);
        return;
      }
      if effect.toolName == "run_command" && data.verify {
        proof := proof.(verification := if data.exitCode == 0 then Verified else VerifyFailed);
      }
    }

    /** Runs the tool; the plan tool passes its proposal to the ledger. */
    method Execute(call: ToolCall, o: Outcome) returns (ok: bool)
      requires plan.Valid()
      modifies plan, `completedAtLastExtension, `baselineInitialized, `baseline
      ensures plan.Valid() && ok == S.Succeeds(Env(), old(Credited()), call, o)
      ensures Credited() == S.Planned(Env(), old(Credited()), call, o)
    {
      if call.name != UPDATE_PLAN {
        return o.ok;
      }
      if o.plan.None? {
        return false;
      }
      ok := plan.Update(o.plan.value.proposal, o.plan.value.persisted);
      if ok && !baselineInitialized {
        completedAtLastExtension := plan.CompletedStepCount();
        baseline := plan.CompletedStepCount();
        baselineInitialized := true;
      }
    }

    method Dispatch(call: ToolCall, signature: string) returns (ok: bool)
      requires plan.Valid()
      modifies `toolCallCount, `talk, `watch, `proof, `clock, `completedAtLastExtension, `baselineInitialized,
          `baseline, plan
      ensures plan.Valid()
      ensures ok == S.Succeeds(Env(), old(Credited()), call, world.outcome(old(clock)))
      ensures talk == S.Dispatched(Env(), old(State()), call, signature).talk
      ensures watch == S.Dispatched(Env(), old(State()), call, signature).watch
      ensures proof == S.Dispatched(Env(), old(State()), call, signature).proof
      ensures Credited() == S.Dispatched(Env(), old(State()), call, signature).credit
      ensures toolCallCount == old(toolCallCount) + 1 && clock == old(clock) + 1
    {
      toolCallCount := toolCallCount + 1;
      watch := watch.(executed := watch.executed + [signature]);
      var o := world.outcome(clock);
      clock := clock + 1;
      ok := Execute(call, o);
      Account(call, o, ok);
    }

    /** The result of a call goes into the history, its effects into the verification status. */
    method Account(call: ToolCall, o: Outcome, ok: bool)
      modifies `talk, `proof
      ensures talk == S.Say(old(State()), S.ResultOf(call, o, ok)).talk
      ensures proof == S.Proved(old(proof), Effect(call.name, ok, o.data))
    {
      AppendHistory(S.ResultOf(call, o, ok));
      RecordOutcomeEffects(Effect(call.name, ok, o.data));
    }

    /** The first of the calls still open: both cancellation points, the finalization rule, the repeat guard. */
    method CallOne(calls: seq<ToolCall>, f: S.Flags) returns (flags: S.Flags, over: bool)
      requires calls != [] && plan.Valid()
      modifies `toolCallCount, `talk, `watch, `proof, `clock, `completedAtLastExtension, `baselineInitialized,
          `baseline, plan
      ensures plan.Valid()
      ensures S.CallOnce(Env(), old(State()), calls, f) ==
        if over then S.Closed(S.Group(State(), flags)) else S.Further(State(), flags)
    {
      flags, over := f, true;
      var stop := Cancelled();
      if stop {
        flags := f.(interrupted := true);
        AppendRemainingAborted(calls);
        return;
      }
      if tally.finalizing && (calls[0].name != UPDATE_PLAN || !plan.NeedsCompletionUpdate()) {
        AppendErrorResult(calls[0], "STEP_BUDGET_EXHAUSTED");
        return f.(denied := true), false;
      }
      flags, over := PrepareAndGuard(calls, f);
    }

    method PrepareAndGuard(calls: seq<ToolCall>, f: S.Flags) returns (flags: S.Flags, over: bool)
      requires calls != [] && plan.Valid()
      modifies `toolCallCount, `talk, `watch, `proof, `clock, `completedAtLastExtension, `baselineInitialized,
          `baseline, plan
      ensures plan.Valid()
      ensures S.PreparedCall(Env(), old(State()), calls, f) ==
        if over then S.Closed(S.Group(State(), flags)) else S.Further(State(), flags)
    {
      var signature := world.signature(clock);
      clock := clock + 1;
      var stopped := Cancelled();
      if stopped {
        AppendRemainingAborted(calls);
        return f.(interrupted := true), true;
      }
      flags, over := GuardedCall(calls, signature, f);
    }

    method RefuseRepeated(calls: seq<ToolCall>)
      requires calls != []
      modifies `toolCallCount, `talk
      ensures State() == S.AbortedAll(S.Refused(old(State()), calls[0], "REPEATED_TOOL_CALL"), calls[1..])
    {
      AppendErrorResult(calls[0], "REPEATED_TOOL_CALL");
      AppendRemainingAborted(calls[1..]);
    }

    method DispatchOne(call: ToolCall, signature: string) returns (ok: bool)
      requires plan.Valid()
      modifies `toolCallCount, `talk, `watch, `proof, `clock, `completedAtLastExtension, `baselineInitialized,
          `baseline, plan
      ensures plan.Valid() && State() == S.Dispatched(Env(), old(State()), call, signature)
      ensures ok == S.Succeeds(Env(), old(Credited()), call, world.outcome(old(clock)))
    {
      ok := Dispatch(call, signature);
    }

    method GuardedCall(calls: seq<ToolCall>, signature: string, f: S.Flags) returns (flags: S.Flags, over: bool)
      requires calls != [] && plan.Valid()
      modifies `toolCallCount, `talk, `watch, `proof, `clock, `completedAtLastExtension, `baselineInitialized,
          `baseline, plan
      ensures plan.Valid()
      ensures S.Guarded(Env(), old(State()), calls, signature, f) ==
        if over then S.Closed(S.Group(State(), flags)) else S.Further(State(), flags)
    {
      UpdateRepeat(signature);
      if watch.repeatCount >= limits.repeatAbortAt {
        RefuseRepeated(calls);
        return f.(aborted := true), true;
      }
      var due := watch.repeatCount == limits.repeatRemindAt;
      var ok := DispatchOne(calls[0], signature);
      return f.(reminderDue := f.reminderDue || due, anySuccess := f.anySuccess || ok), false;
    }

    method HandleExecuting()
      requires phase == Executing && end.None? && plan.Valid()
      modifies this, plan
      ensures plan.Valid() && State() == S.ExecuteStep(Env(), old(State()))
    {
      var calls := talk.pending;
      if calls == [] {
        Transit(Ready);
        return;
      }
      var bad := InvalidToolCalls(calls);
      if exists i :: 0 <= i < |calls| && bad[i] {
        var codes := seq(|calls|, i requires 0 <= i < |calls| =>
          if bad[i] then "PROTOCOL_ERROR" else "ABORTED_BEFORE_DISPATCH");
        assert codes == S.IdCodes(calls);
        RefuseAll(calls, codes);
        Finish(RunError, ProtocolError, None);
        return;
      }
      if tally.planExceeded {
        RefuseAll(calls, seq(|calls|, i => "STEP_BUDGET_EXHAUSTED"));
        Finish(RunError, MaxSteps, None);
        return;
      }
      var flags := CallAll(calls);
      CloseGroup(flags);
    }

    method CallAll(calls: seq<ToolCall>) returns (flags: S.Flags)
      requires plan.Valid()
      modifies `toolCallCount, `talk, `watch, `proof, `clock, `completedAtLastExtension, `baselineInitialized,
          `baseline, plan
      ensures plan.Valid() && S.Group(State(), flags) == S.Calls(Env(), old(State()), calls, S.NO_FLAGS)
    {
      flags := S.NO_FLAGS;
      for i := 0 to |calls|
        invariant plan.Valid()
        invariant S.Calls(Env(), State(), calls[i..], flags) == S.Calls(Env(), old(State()), calls, S.NO_FLAGS)
      {
        assert calls[i..][1..] == calls[i + 1..];
        var over;
        flags, over := CallOne(calls[i..], flags);
        if over {
          return;
        }
      }
    }

    /** The end of a group: an abort, an interrupt, or the bookkeeping of a finished round. */
    method CloseGroup(flags: S.Flags)
      requires Working(phase) && phase == Executing && end.None? && plan.Valid()
      modifies this, plan
      ensures plan.Valid() && State() == S.GroupDone(Env(), S.Group(old(State()), flags))
    {
      if flags.aborted {
        Finish(RunError, RepeatedToolCall, None);
        return;
      }
      if flags.interrupted {
        Finish(RunInterrupted, UserInterrupt, None);
        return;
      }
      if flags.reminderDue {
        AppendHistory(S.Note("repeated call", "loop_guard"));
      }
      if flags.anySuccess {
        watch := watch.(failedRounds := 0);
      } else if !flags.denied {
        watch := watch.(failedRounds := watch.failedRounds + 1);
      }
      watch := watch.(rounds := watch.rounds + [Round(flags.anySuccess, flags.denied)]);
      if watch.failedRounds >= limits.toolFailureRoundLimit {
        Finish(RunError, ToolFailureLimit, None);
        return;
      }
      Transit(Ready);
    }

    /** Safe point two, the plan reminder, and the completion policy. */
    method HandleCompletion()
      requires phase == Checking && end.None? && talk.answer.Some? && plan.Valid()
      modifies this, plan, inbox
      ensures plan.Valid() && State() == S.CompletionStep(Env(), old(State()))
    {
      var turn := talk.answer.value;
      var steered := PollSteer();
      if steered {
        Transit(Ready);
        return;
      }
      if plan.NeedsCompletionUpdate() && !talk.planDeferred && !tally.finalizing {
        talk := talk.(planDeferred := true);
        AppendHistory(S.Note("close the plan", "plan_policy"));
        Transit(Ready);
        return;
      }
      if proof.mutated == map[] {
        proof := proof.(verification := NotApplicable);
      }
      var decision := Decide(proof.mutated != map[], proof.verification, tally.work, tally.budget,
                             talk.completionDeferred);
      if decision.Complete? {
        Finish(RunSuccess, FinalAnswer, Some(turn.text));
        return;
      }
      talk := talk.(completionDeferred := true);
      AppendHistory(S.Note("verify first", "completion_policy"));
      Transit(Ready);
    }

    // -------------------------------------------------------------- the run

    method HandlePhase() returns (fault: Option<StopReason>)
      requires Working(phase) && end.None? && plan.Valid()
      requires (phase.Handling? || phase.Checking?) ==> talk.answer.Some?
      modifies this, plan, inbox
      ensures plan.Valid() && S.Handled(State(), fault) == S.Handle(Env(), old(State()))
      ensures fault.Some? ==> end.None? && Working(phase)
    {
      fault := None;
      match phase
      case Ready => fault := HandleReady();
      case Requesting => fault := HandleRequesting();
      case Handling => HandleResponse();
      case Executing => HandleExecuting();
      case Checking => HandleCompletion();
    }

    /** One turn of the main loop. */
    method Step()
      requires Working(phase) && end.None? && plan.Valid()
      requires (phase.Handling? || phase.Checking?) ==> talk.answer.Some?
      modifies this, plan, inbox
      ensures plan.Valid() && State() == S.RunStep(Env(), old(State()))
    {
      var stop := Cancelled();
      if stop {
        Finish(RunInterrupted, UserInterrupt, None);
        return;
      }
      var fault := HandlePhase();
      if fault.Some? {
        Finish(RunError, fault.value, None);
      }
    }

    /** Opens the history: the system message at its start, what the user asked for at its end. */
    method Open(t: Runs.Turn) returns (started: bool)
      requires phase == Initializing
      modifies `talk, `phase
      ensures started <==> Runs.Startable(t)
      ensures State() == if started then old(State()).(phase := Ready, talk := Runs.Begun(Env(), t).talk)
        else old(State())
    {
      if t.taskInHistory {
        if t.history == [] || !t.history[0].SystemMessage? {
          return false;
        }
        var last := t.history[|t.history| - 1];
        if !last.UserMessage? || last.content != t.task {
          return false;
        }
      }
      talk := S.Talk(t.history, [], 0, false, false, None, []);
      if !t.taskInHistory {
        if talk.history == [] || !talk.history[0].SystemMessage? {
          AppendHistory(SystemMessage(t.system));
        }
        AppendHistory(S.Note(t.task, "user"));
      }
      talk := talk.(runStart := |talk.history|);
      Transit(Ready);
      started := true;
    }

    /** Runs one turn of a conversation, whatever its history owes; a refused turn changes nothing. */
    method Run(t: Runs.Turn) returns (started: bool)
      requires limits.Valid() && plan.Valid() && ValidLedger(plan.text, earlier)
      requires State() == Runs.Begun(Env(), Runs.Turn([], "", "", true)).(phase := Initializing)
      modifies this, plan, inbox
      ensures started <==> Runs.Startable(t)
      ensures State() == if started then Runs.WholeRun(Env(), t) else old(State())
    {
      started := Open(t);
      if !started {
        return;
      }
      Runs.BegunIsValid(Env(), t);
      ghost var s := State();
      assert s == Runs.Begun(Env(), t);
      while Working(phase)
        invariant plan.Valid() && s == State() && R.Valid(Env(), s)
        invariant Runs.Run(Env(), s) == Runs.WholeRun(Env(), t)
        decreases R.Left(Env(), s)
      {
        Runs.RunStepKeeps(Env(), s);
        Step();
        s := S.RunStep(Env(), s);
      }
    }
  }
}
