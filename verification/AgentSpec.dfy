/** The agent loop as functions on its state: what one visit of each phase does. */
module AgentSpec {
  import opened Results
  import opened Messages
  import opened Planning
  import opened Guards
  import opened Agent

  /** The step counters and the budgets they are held against. */
  datatype Tally = Tally(
    steps: nat, work: nat, plan: nat, finalization: nat, budget: nat, attempts: nat,
    finalizing: bool, requestIsFinalization: bool, planExceeded: bool)

  /** The conversation so far, and the history at every provider attempt of this run. */
  datatype Talk = Talk(
    history: seq<Message>, requests: seq<seq<Message>>, runStart: nat,
    completionDeferred: bool, planDeferred: bool, answer: Option<AssistantTurn>, pending: seq<ToolCall>)

  /** The repeat and failure guards, with all guarded calls, dispatched calls and finished rounds. */
  datatype Watch = Watch(
    lastSignature: Option<string>, repeatCount: nat, signatures: seq<string>, executed: seq<string>,
    failedRounds: nat, rounds: seq<Round>)

  /** Verification and changed paths, with all outcomes. */
  datatype Proof = Proof(verification: Verification, mutated: map<string, string>, effects: seq<Effect>)

  /** The adaptive budget against the plan. */
  datatype Credit = Credit(extensions: nat, completedAtLast: nat, initialized: bool, baseline: nat,
                           plan: Option<PlanSnapshot>)

  datatype End = End(status: RunStatus, reason: StopReason, text: Option<string>)

  datatype LoopState = LoopState(
    phase: Phase, tally: Tally, talk: Talk, watch: Watch, proof: Proof, credit: Credit,
    toolCalls: nat, clock: nat, boundary: nat, steers: nat, end: Option<End>)

  /** What a run does not change; `plan` is what the ledger held when the loop was built. */
  datatype Env = Env(limits: Limits, world: World, hasInbox: bool, text: Text, plan: Option<PlanSnapshot>)

  // ---------------------------------------------------------------- small steps

  /** Time passes with every question to the world. */
  function Tick(s: LoopState): LoopState {
    s.(clock := s.clock + 1)
  }

  function Say(s: LoopState, m: Message): LoopState {
    s.(talk := s.talk.(history := s.talk.history + [m]))
  }

  function Note(content: string, source: string): Message {
    UserMessage(content, source, [])
  }

  function Finished(s: LoopState, status: RunStatus, reason: StopReason, text: Option<string>): LoopState {
    s.(phase := if status.RunInterrupted? then Interrupted else Terminal,
       end := Some(End(status, reason, text)),
       credit := s.credit.(plan := Terminated(s.credit.plan, status)))
  }

  function Terminated(plan: Option<PlanSnapshot>, status: RunStatus): Option<PlanSnapshot> {
    if plan.None? then None else Some(plan.value.(state := TerminalState(status, plan.value.steps)))
  }

  function Stop(s: LoopState): LoopState {
    Finished(s, RunInterrupted, UserInterrupt, None)
  }

  datatype Polled = Polled(state: LoopState, delivered: bool)

  /** At most one waiting steer, never when cancelled, never twice at one boundary, only when claimed. */
  function Poll(e: Env, s: LoopState): Polled {
    if !e.hasInbox then Polled(s, false)
    else if e.world.cancelled(s.clock) then Polled(Tick(s), false)
    else
      var s1 := Tick(s);
      var waiting := e.world.steer(s1.clock);
      var s2 := Tick(s1);
      if s.tally.steps <= s.boundary then Polled(s2, false)
      else
        var s3 := s2.(boundary := s.tally.steps);
        if waiting.None? then Polled(s3, false)
        else if !e.world.claimed(s3.clock) then Polled(Tick(s3), false)
        else Polled(Say(Tick(s3), Note(waiting.value.content, "steer")).(steers := s.steers + 1), true)
  }

  /** The outcome of a handler: the new state, or the error that broke it off. */
  datatype Handled = Handled(state: LoopState, fault: Option<StopReason>)

  // ---------------------------------------------------------------- READY

  predicate CanExtend(l: Limits, t: Tally, c: Credit) {
    && t.budget < l.hardMaxSteps
    && HasOpen(StepsOf(c.plan))
    && CountOf(StepsOf(c.plan), Completed) > c.completedAtLast
  }

  function Extended(e: Env, s: LoopState): LoopState {
    var raised := s.tally.budget + e.limits.stepBudgetIncrement;
    s.(tally := s.tally.(budget := if raised <= e.limits.hardMaxSteps then raised else e.limits.hardMaxSteps),
       credit := s.credit.(completedAtLast := CountOf(StepsOf(s.credit.plan), Completed),
                           extensions := s.credit.extensions + 1))
  }

  function Finalizing(s: LoopState): LoopState {
    Say(s.(tally := s.tally.(finalizing := true)), Note("finalize", "step_budget"))
  }

  /** The budget decision before a request. */
  function Budgeted(e: Env, s: LoopState): LoopState {
    if s.tally.finalizing then
      if s.tally.finalization >= e.limits.finalizationSteps then Finished(s, RunError, MaxSteps, None) else s
    else if s.tally.work >= s.tally.budget then
      if CanExtend(e.limits, s.tally, s.credit) then Extended(e, s) else Finalizing(s)
    else s
  }

  function Counted(t: Tally): Tally {
    t.(steps := t.steps + 1, requestIsFinalization := t.finalizing,
       finalization := if t.finalizing then t.finalization + 1 else t.finalization)
  }

  /** The request view, and the step it opens. */
  function Viewed(e: Env, s: LoopState): Handled {
    match e.world.view(s.clock)
    case TooLarge => Handled(Tick(s), Some(ContextOverflow))
    case BuildCrashed => Handled(Tick(s), Some(InternalError))
    case Built => Handled(Tick(s).(tally := Counted(s.tally), phase := Requesting), None)
  }

  function ReadyStep(e: Env, s: LoopState): Handled {
    var s1 := Budgeted(e, Poll(e, s).state);
    if s1.end.Some? then Handled(s1, None) else Viewed(e, s1)
  }

  // ---------------------------------------------------------------- REQUESTING

  datatype Asked =
    | Answer(state: LoopState, turn: AssistantTurn) | Retry(state: LoopState) | Silent(state: LoopState)
    | Over(state: LoopState) | Crashed(state: LoopState)

  function Attempted(s: LoopState): LoopState {
    s.(tally := s.tally.(attempts := s.tally.attempts + 1),
       talk := s.talk.(requests := s.talk.requests + [s.talk.history]))
  }

  /** A failed attempt is given up on cancellation, on a permanent error and after the last attempt. */
  function AfterFailure(e: Env, s: LoopState, retryable: bool, attempt: nat): Asked {
    if e.world.cancelled(s.clock) then Over(Stop(Tick(s)))
    else if !retryable || attempt >= e.limits.maxProviderAttempts then
      Over(Finished(Tick(s), RunError, ModelError, None))
    else Retry(Tick(s))
  }

  function AttemptOnce(e: Env, s: LoopState, attempt: nat): Asked {
    if e.world.cancelled(s.clock) then Over(Stop(Tick(s)))
    else
      var s1 := Attempted(Tick(s));
      match e.world.reply(s1.clock)
      case Replied(turn) => Answer(Tick(s1), turn)
      case RequestCrashed => Crashed(Tick(s1))
      case RequestFailed(retryable) => AfterFailure(e, Tick(s1), retryable, attempt)
  }

  /** The provider attempts from number `attempt` on. */
  function Attempts(e: Env, s: LoopState, attempt: nat): Asked
    decreases e.limits.maxProviderAttempts + 1 - attempt
  {
    if attempt > e.limits.maxProviderAttempts then Silent(s)
    else
      var once := AttemptOnce(e, s, attempt);
      if once.Retry? then Attempts(e, once.state, attempt + 1) else once
  }

  /** A plan-only answer is counted as planning, any other one as work, none of it while finalizing. */
  function Charged(l: Limits, t: Tally, turn: AssistantTurn): Tally {
    if t.requestIsFinalization then t
    else if PlanOnly(turn.toolCalls) then
      t.(plan := t.plan + 1, planExceeded := t.planExceeded || t.plan + 1 > l.maxPlanSteps)
    else t.(work := t.work + 1)
  }

  function Recorded(e: Env, s: LoopState, turn: AssistantTurn): LoopState {
    var s1 := Say(s.(tally := Charged(e.limits, s.tally, turn)),
                  AssistantMessage(turn.text, turn.toolCalls, turn.reasoning, turn.continuations));
    s1.(talk := s1.talk.(answer := Some(turn)), phase := Handling)
  }

  function Concluded(e: Env, a: Asked): Handled {
    if a.Over? then Handled(a.state, None)
    else if a.Crashed? then Handled(a.state, Some(InternalError))
    else if e.world.cancelled(a.state.clock) then Handled(Stop(Tick(a.state)), None)
    else if a.Answer? then Handled(Recorded(e, Tick(a.state), a.turn), None)
    else Handled(Finished(Tick(a.state), RunError, ModelError, None), None)
  }

  function RequestStep(e: Env, s: LoopState): Handled {
    Concluded(e, Attempts(e, s, 1))
  }

  // ---------------------------------------------------------------- HANDLING

  function ResponseStep(e: Env, s: LoopState): LoopState
    requires s.talk.answer.Some?
  {
    var turn := s.talk.answer.value;
    if turn.toolCalls == [] then
      if e.world.blank(turn.text) then Finished(s, RunError, ProtocolError, None) else s.(phase := Checking)
    else s.(talk := s.talk.(pending := turn.toolCalls), phase := Executing)
  }

  // ---------------------------------------------------------------- EXECUTING

  function Refused(s: LoopState, call: ToolCall, code: string): LoopState {
    Say(s.(toolCalls := s.toolCalls + 1), ErrorResult(call, code))
  }

  /** Every one of the calls is paired with an error result instead of being dispatched. */
  function RefusedAll(s: LoopState, calls: seq<ToolCall>, codes: seq<string>): LoopState
    requires |calls| == |codes|
    decreases |calls|
  {
    if calls == [] then s else RefusedAll(Refused(s, calls[0], codes[0]), calls[1..], codes[1..])
  }

  function AbortedAll(s: LoopState, calls: seq<ToolCall>): LoopState {
    RefusedAll(s, calls, seq(|calls|, i => "ABORTED_BEFORE_DISPATCH"))
  }

  function IdCodes(calls: seq<ToolCall>): seq<string> {
    seq(|calls|, i requires 0 <= i < |calls| => if BadId(calls, i) then "PROTOCOL_ERROR" else "ABORTED_BEFORE_DISPATCH")
  }

  function Watched(w: Watch, signature: string): Watch {
    w.(lastSignature := Some(signature),
       repeatCount := if Some(signature) == w.lastSignature then w.repeatCount + 1 else 1,
       signatures := w.signatures + [signature])
  }

  function Proved(p: Proof, effect: Effect): Proof {
    var p1 := p.(effects := p.effects + [effect]);
    if IsWrite(effect) then
      var path := effect.data.value.path;
      p1.(mutated := if path == "" then p.mutated else p.mutated[path := effect.data.value.fingerprint],
          verification := NotRun)
    else if IsVerify(effect) then
      p1.(verification := if effect.data.value.exitCode == 0 then Verified else VerifyFailed)
    else p1
  }

  /** The plan tool succeeds when the ledger takes its proposal; every other tool answers for itself. */
  function Succeeds(e: Env, c: Credit, call: ToolCall, o: Outcome): bool {
    if call.name == UPDATE_PLAN then
      o.plan.Some? && Accepts(e.text, c.plan, o.plan.value.proposal) && o.plan.value.persisted
    else o.ok
  }

  function Planned(e: Env, c: Credit, call: ToolCall, o: Outcome): Credit {
    if call.name != UPDATE_PLAN || o.plan.None? then c
    else
      var next := Updated(e.text, c.plan, o.plan.value.proposal, o.plan.value.persisted);
      if Succeeds(e, c, call, o) && !c.initialized then
        var completed := CountOf(StepsOf(next), Completed);
        c.(plan := next, initialized := true, completedAtLast := completed, baseline := completed)
      else c.(plan := next)
  }

  function ResultOf(call: ToolCall, o: Outcome, ok: bool): Message {
    var read := ok && call.name == "read_file" && o.filePath.Some?;
    ToolMessage(call.id, o.content, call.name, ok, o.resourceKey, read, if read then o.filePath else None)
  }

  /** A call that passed the guards is executed, answered and judged. */
  function Dispatched(e: Env, s: LoopState, call: ToolCall, signature: string): LoopState {
    var o := e.world.outcome(s.clock);
    var ok := Succeeds(e, s.credit, call, o);
    Say(Tick(s), ResultOf(call, o, ok)).(
      toolCalls := s.toolCalls + 1,
      watch := s.watch.(executed := s.watch.executed + [signature]),
      proof := Proved(s.proof, Effect(call.name, ok, o.data)),
      credit := Planned(e, s.credit, call, o))
  }

  datatype Flags = Flags(interrupted: bool, aborted: bool, reminderDue: bool, anySuccess: bool, denied: bool)

  datatype Group = Group(state: LoopState, flags: Flags)

  /** After one call the group goes on, or it is over with all its calls answered. */
  datatype Called = Further(state: LoopState, flags: Flags) | Closed(group: Group)

  /** A call that was prepared: the repeat guard, then dispatch. */
  function Guarded(e: Env, s: LoopState, calls: seq<ToolCall>, signature: string, f: Flags): Called
    requires calls != []
  {
    var s1 := s.(watch := Watched(s.watch, signature));
    if s1.watch.repeatCount >= e.limits.repeatAbortAt then
      Closed(Group(AbortedAll(Refused(s1, calls[0], "REPEATED_TOOL_CALL"), calls[1..]), f.(aborted := true)))
    else
      Further(Dispatched(e, s1, calls[0], signature),
              f.(reminderDue := f.reminderDue || s1.watch.repeatCount == e.limits.repeatRemindAt,
                 anySuccess := f.anySuccess || Succeeds(e, s1.credit, calls[0], e.world.outcome(s1.clock))))
  }

  /** Preparing a call has no side effects; a cancellation that arrived meanwhile still stops it. */
  function PreparedCall(e: Env, s: LoopState, calls: seq<ToolCall>, f: Flags): Called
    requires calls != []
  {
    var s1 := Tick(s);
    if e.world.cancelled(s1.clock) then Closed(Group(AbortedAll(Tick(s1), calls), f.(interrupted := true)))
    else Guarded(e, Tick(s1), calls, e.world.signature(s.clock), f)
  }

  /** The first of the remaining calls, with both cancellation points and the finalization rule. */
  function CallOnce(e: Env, s: LoopState, calls: seq<ToolCall>, f: Flags): Called
    requires calls != []
  {
    if e.world.cancelled(s.clock) then Closed(Group(AbortedAll(Tick(s), calls), f.(interrupted := true)))
    else
      var s1 := Tick(s);
      if s.tally.finalizing && (calls[0].name != UPDATE_PLAN || !HasOpen(StepsOf(s.credit.plan))) then
        Further(Refused(s1, calls[0], "STEP_BUDGET_EXHAUSTED"), f.(denied := true))
      else PreparedCall(e, s1, calls, f)
  }

  /** The calls of a group one after the other. */
  function Calls(e: Env, s: LoopState, calls: seq<ToolCall>, f: Flags): Group
    decreases |calls|
  {
    if calls == [] then Group(s, f)
    else
      var once := CallOnce(e, s, calls, f);
      if once.Closed? then once.group else Calls(e, once.state, calls[1..], once.flags)
  }

  const NO_FLAGS := Flags(false, false, false, false, false)

  function Rounded(w: Watch, f: Flags): Watch {
    w.(failedRounds := if f.anySuccess then 0 else if f.denied then w.failedRounds else w.failedRounds + 1,
       rounds := w.rounds + [Round(f.anySuccess, f.denied)])
  }

  function GroupDone(e: Env, g: Group): LoopState {
    if g.flags.aborted then Finished(g.state, RunError, RepeatedToolCall, None)
    else if g.flags.interrupted then Stop(g.state)
    else
      var s1 := if g.flags.reminderDue then Say(g.state, Note("repeated call", "loop_guard")) else g.state;
      var s2 := s1.(watch := Rounded(s1.watch, g.flags));
      if s2.watch.failedRounds >= e.limits.toolFailureRoundLimit then Finished(s2, RunError, ToolFailureLimit, None)
      else s2.(phase := Ready)
  }

  function ExecuteStep(e: Env, s: LoopState): LoopState {
    var calls := s.talk.pending;
    if calls == [] then s.(phase := Ready)
    else if exists i :: 0 <= i < |calls| && BadId(calls, i) then
      Finished(RefusedAll(s, calls, IdCodes(calls)), RunError, ProtocolError, None)
    else if s.tally.planExceeded then
      Finished(RefusedAll(s, calls, seq(|calls|, i => "STEP_BUDGET_EXHAUSTED")), RunError, MaxSteps, None)
    else GroupDone(e, Calls(e, s, calls, NO_FLAGS))
  }

  // ---------------------------------------------------------------- CHECKING

  function CompletionStep(e: Env, s: LoopState): LoopState
    requires s.talk.answer.Some?
  {
    var polled := Poll(e, s);
    var s1 := polled.state;
    if polled.delivered then s1.(phase := Ready)
    else if HasOpen(StepsOf(s1.credit.plan)) && !s1.talk.planDeferred && !s1.tally.finalizing then
      var s2 := Say(s1, Note("close the plan", "plan_policy"));
      s2.(phase := Ready, talk := s2.talk.(planDeferred := true))
    else
      var s2 := if s1.proof.mutated == map[] then s1.(proof := s1.proof.(verification := NotApplicable)) else s1;
      if Decide(s2.proof.mutated != map[], s2.proof.verification, s2.tally.work, s2.tally.budget,
                s2.talk.completionDeferred).Complete? then
        Finished(s2, RunSuccess, FinalAnswer, Some(s.talk.answer.value.text))
      else
        var s3 := Say(s2, Note("verify first", "completion_policy"));
        s3.(talk := s3.talk.(completionDeferred := true), phase := Ready)
  }

  // ---------------------------------------------------------------- the run

  /** The handler of the phase. */
  function Handle(e: Env, s: LoopState): Handled
    requires Working(s.phase) && ((s.phase.Handling? || s.phase.Checking?) ==> s.talk.answer.Some?)
  {
    match s.phase
    case Ready => ReadyStep(e, s)
    case Requesting => RequestStep(e, s)
    case Handling => Handled(ResponseStep(e, s), None)
    case Executing => Handled(ExecuteStep(e, s), None)
    case Checking => Handled(CompletionStep(e, s), None)
  }

  /** An error that escapes a handler ends the run. */
  function Caught(h: Handled): LoopState {
    if h.fault.Some? then Finished(h.state, RunError, h.fault.value, None) else h.state
  }

  /** One turn of the main loop: cancellation first, then the handler of the phase. */
  function RunStep(e: Env, s: LoopState): LoopState
    requires Working(s.phase) && ((s.phase.Handling? || s.phase.Checking?) ==> s.talk.answer.Some?)
  {
    if e.world.cancelled(s.clock) then Stop(Tick(s)) else Caught(Handle(e, Tick(s)))
  }
}
