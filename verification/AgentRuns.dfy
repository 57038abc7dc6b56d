/** Whole runs of the agent loop: they end within a bound, and what holds of everything they did. */
module AgentRuns {
  import opened Results
  import opened Messages
  import opened Planning
  import opened Guards
  import opened Agent
  import opened AgentSpec
  import opened AgentRules

  lemma TickKeeps(e: Env, s: LoopState)
    requires Valid(e, s)
    ensures Valid(e, Tick(s)) && Left(e, Tick(s)) == Left(e, s)
  {}

  /** A cancellation or an error ends the run in good order. */
  lemma BreakKeeps(e: Env, s: LoopState, status: RunStatus, reason: StopReason)
    requires Sound(e, s) && Calm(e.limits, s.watch) && reason in {UserInterrupt, ContextOverflow, InternalError}
    ensures Advanced(e, Finished(s, status, reason, None), s.tally.steps, 1)
  {
    EndsAdvanced(e, s, status, reason, None, 1);
  }

  /** What one turn of the main loop leaves behind. */
  ghost predicate Turned(e: Env, s: LoopState, s1: LoopState) {
    Valid(e, s1) && Left(e, s1) < Left(e, s) && s1.phase in Allowed(s.phase)
  }

  lemma FaultRuns(e: Env, s: LoopState, s1: LoopState, reason: StopReason)
    requires Valid(e, s) && Working(s.phase) && s1.tally.steps == s.tally.steps
    requires Sound(e, s1) && Calm(e.limits, s1.watch) && reason in {ContextOverflow, InternalError}
    ensures Turned(e, s, Finished(s1, RunError, reason, None))
  {
    BreakKeeps(e, s1, RunError, reason);
  }

  lemma ReadyRuns(e: Env, s: LoopState)
    requires Valid(e, s) && s.phase == Ready
    ensures Turned(e, s, Caught(ReadyStep(e, s)))
  {
    ReadyKeeps(e, s);
    var h := ReadyStep(e, s);
    if h.fault.Some? { FaultRuns(e, s, h.state, h.fault.value); }
  }

  lemma RequestRuns(e: Env, s: LoopState)
    requires Valid(e, s) && s.phase == Requesting
    ensures Turned(e, s, Caught(RequestStep(e, s)))
  {
    RequestKeeps(e, s);
    var h := RequestStep(e, s);
    if h.fault.Some? { FaultRuns(e, s, h.state, h.fault.value); }
  }

  lemma HandleRuns(e: Env, s: LoopState)
    requires Valid(e, s) && Working(s.phase)
    ensures Turned(e, s, Caught(Handle(e, s)))
  {
    match s.phase
    case Ready => ReadyRuns(e, s);
    case Requesting => RequestRuns(e, s);
    case Handling => ResponseKeeps(e, s);
    case Executing => ExecuteKeeps(e, s);
    case Checking => CompletionKeeps(e, s);
  }

  /** Every turn of the main loop keeps the rules, takes an allowed transition, and brings the end nearer. */
  lemma RunStepKeeps(e: Env, s: LoopState)
    requires Valid(e, s) && Working(s.phase)
    ensures Turned(e, s, RunStep(e, s))
  {
    TickKeeps(e, s);
    if e.world.cancelled(s.clock) {
      BreakKeeps(e, Tick(s), RunInterrupted, UserInterrupt);
    } else {
      HandleRuns(e, Tick(s));
    }
  }

  /** The run from a reachable state to its end. */
  ghost function Run(e: Env, s: LoopState): LoopState
    requires Valid(e, s)
    decreases Left(e, s)
  {
    if Working(s.phase) then
      RunStepKeeps(e, s);
      Run(e, RunStep(e, s))
    else s
  }

  lemma {:induction false} RunEnds(e: Env, s: LoopState)
    requires Valid(e, s)
    ensures Valid(e, Run(e, s)) && !Working(Run(e, s).phase)
    decreases Left(e, s)
  {
    if Working(s.phase) {
      RunStepKeeps(e, s);
      RunEnds(e, RunStep(e, s));
    }
  }

  predicate GoesOn(s: LoopState) {
    Working(s.phase) && ((s.phase.Handling? || s.phase.Checking?) ==> s.talk.answer.Some?)
  }

  /** The state after `n` more turns of the main loop. */
  function Later(e: Env, s: LoopState, n: nat): LoopState
    decreases n
  {
    if n == 0 || !GoesOn(s) then s else Later(e, RunStep(e, s), n - 1)
  }

  lemma {:induction false} LaterOn(e: Env, s: LoopState, m: nat, n: nat)
    ensures Later(e, s, m + n) == Later(e, Later(e, s, m), n)
    decreases m
  {
    if m > 0 && GoesOn(s) { LaterOn(e, RunStep(e, s), m - 1, n); }
  }

  /** The run ends alike from every state on its way. */
  lemma {:induction false} RunFromLater(e: Env, s: LoopState, n: nat)
    requires Valid(e, s)
    ensures Valid(e, Later(e, s, n)) && Run(e, s) == Run(e, Later(e, s, n))
    decreases n
  {
    if n > 0 && Working(s.phase) {
      RunStepKeeps(e, s);
      RunFromLater(e, RunStep(e, s), n - 1);
    }
  }

  // ---------------------------------------------------------------- the start of a run

  /** What a turn is started with: the history so far, the user's request, and whether it is already in the history. */
  datatype Turn = Turn(history: seq<Message>, system: string, task: string, taskInHistory: bool)

  predicate Startable(t: Turn) {
    t.taskInHistory ==>
      && t.history != [] && t.history[0].SystemMessage?
      && t.history[|t.history| - 1].UserMessage? && t.history[|t.history| - 1].content == t.task
  }

  function Opened(t: Turn): seq<Message> {
    if t.taskInHistory then t.history
    else if t.history == [] || !t.history[0].SystemMessage? then
      t.history + [SystemMessage(t.system)] + [Note(t.task, "user")]
    else t.history + [Note(t.task, "user")]
  }

  function Begun(e: Env, t: Turn): LoopState {
    var completed := CountOf(StepsOf(e.plan), Completed);
    LoopState(
      Ready, Tally(0, 0, 0, 0, e.limits.baseMaxSteps, 0, false, false, false),
      Talk(Opened(t), [], |Opened(t)|, false, false, None, []),
      Watch(None, 0, [], [], 0, []), Proof(NotApplicable, map[], []),
      Credit(0, completed, e.plan.Some?, completed, e.plan),
      0, 0, 0, 0, None)
  }

  lemma EmptyWatch(l: Limits)
    ensures WatchOk(l, Watch(None, 0, [], [], 0, [])) && Calm(l, Watch(None, 0, [], [], 0, []))
  {
    assert l.repeatAbortAt > 0 ==> forall i: nat :: !Block([], i, l.repeatAbortAt);
  }

  /** Every conversation starts a run in a reachable state: the run itself owes nothing yet. */
  lemma BegunIsValid(e: Env, t: Turn)
    requires e.limits.Valid() && ValidLedger(e.text, e.plan)
    ensures Valid(e, Begun(e, t))
  {
    assert WrittenPaths([]) == {};
    EmptyWatch(e.limits);
  }

  /** A whole run, from its start to its end. */
  ghost function WholeRun(e: Env, t: Turn): LoopState
    requires e.limits.Valid() && ValidLedger(e.text, e.plan)
  {
    BegunIsValid(e, t);
    Run(e, Begun(e, t))
  }

  lemma WholeRunEnds(e: Env, t: Turn)
    requires e.limits.Valid() && ValidLedger(e.text, e.plan)
    ensures Valid(e, WholeRun(e, t)) && !Working(WholeRun(e, t).phase)
  {
    BegunIsValid(e, t);
    RunEnds(e, Begun(e, t));
  }

  // ---------------------------------------------------------------- what every run keeps

  /**
   Every run ends: within the three step limits, with a bounded number of provider attempts and at most one
   steer per step; and in what it added to the given history, every request it sent had each call answered
   right behind it, in order.
   */
  lemma RunIsBoundedAndPaired(e: Env, t: Turn)
    requires e.limits.Valid() && ValidLedger(e.text, e.plan)
    ensures var end := WholeRun(e, t);
      && !Working(end.phase) && end.end.Some?
      && end.tally.steps <= e.limits.hardMaxSteps + e.limits.maxPlanSteps + e.limits.finalizationSteps
      && end.tally.attempts <= e.limits.maxProviderAttempts * end.tally.steps
      && end.steers <= end.tally.steps
      && forall r :: r in end.talk.requests ==> end.talk.runStart <= |r| && WellGrouped(r[end.talk.runStart..])
  {
    WholeRunEnds(e, t);
    var end := WholeRun(e, t);
    forall r | r in end.talk.requests ensures end.talk.runStart <= |r| && WellGrouped(r[end.talk.runStart..]) {
      assert OwedFrom(r, end.talk.runStart) == Some([]);
      OwedIsAwaited(r, end.talk.runStart);
      PairedIff(r[end.talk.runStart..]);
    }
  }

  /**
   Over the whole run: dispatched calls never repeat `repeatAbortAt` times in a row, and the run ends for
   failed rounds exactly when the rounds since the last success reach the limit, and not before.
   */
  lemma RunIsGuarded(e: Env, t: Turn)
    requires e.limits.Valid() && ValidLedger(e.text, e.plan)
    ensures var end := WholeRun(e, t);
      && end.end.Some?
      && (0 < e.limits.repeatAbortAt ==> NoBlock(end.watch.executed, e.limits.repeatAbortAt))
      && (end.end.value.reason == RepeatedToolCall <==> end.watch.executed != end.watch.signatures)
      && (end.end.value.reason == ToolFailureLimit <==>
            end.watch.rounds != [] && Failures(end.watch.rounds) >= e.limits.toolFailureRoundLimit)
      && forall i :: 0 < i < |end.watch.rounds| ==> Failures(end.watch.rounds[..i]) < e.limits.toolFailureRoundLimit
  {
    WholeRunEnds(e, t);
  }

  /**
   A final answer claims verification exactly when files were changed and the last verify command came after
   every write and exited with zero; otherwise changed files mean that the one reminder was sent, or that the
   work budget was used up.
   */
  lemma RunIsHonest(e: Env, t: Turn)
    requires e.limits.Valid() && ValidLedger(e.text, e.plan)
    ensures var end := WholeRun(e, t); var log := end.proof.effects;
      && end.end.Some? && end.proof.mutated.Keys == WrittenPaths(log)
      && Reminders(end.talk.history, end.talk.runStart) <= 1
      && (end.end.value.reason == FinalAnswer ==>
        && (end.proof.verification == Verified <==>
              WrittenPaths(log) != {} && exists j ::
                  0 <= j < |log| && LastWord(log, j) && log[j].data.value.exitCode == 0)
        && (WrittenPaths(log) != {} && end.proof.verification != Verified ==>
              Reminders(end.talk.history, end.talk.runStart) == 1 || end.tally.work >= end.tally.budget))
  {
    WholeRunEnds(e, t);
    var end := WholeRun(e, t);
    VerdictMeans(end.proof.effects);
    assert end.proof.mutated == map[] <==> end.proof.mutated.Keys == {};
  }

  /** The budget is extended at most `PLAN_MAX_STEPS - 1` times, each time for a newly completed plan step. */
  lemma RunPaysForExtensions(e: Env, t: Turn)
    requires e.limits.Valid() && ValidLedger(e.text, e.plan)
    ensures var end := WholeRun(e, t);
      && ValidLedger(e.text, end.credit.plan)
      && end.credit.extensions <= PLAN_MAX_STEPS - 1
      && (e.plan.Some? ==> end.credit.baseline == CountOf(StepsOf(e.plan), Completed))
      && end.credit.baseline + end.credit.extensions <= CountOf(StepsOf(end.credit.plan), Completed)
      && end.tally.budget <= e.limits.hardMaxSteps
  {
    WholeRunEnds(e, t);
  }
}
