/** What every reachable state of the agent loop satisfies, phase by phase, said about plain values. */
module AgentRules {
  import opened Results
  import opened Messages
  import opened Planning
  import opened PlanLaws
  import opened Guards
  import opened Agent
  import opened AgentSpec

  function Bound(l: Limits): nat {
    l.hardMaxSteps + l.maxPlanSteps + l.finalizationSteps
  }

  ghost predicate TallyOk(l: Limits, t: Tally) {
    && l.Valid()
    && l.baseMaxSteps <= t.budget <= l.hardMaxSteps && t.work <= t.budget
    && t.plan <= l.maxPlanSteps + (if t.planExceeded then 1 else 0)
    && t.finalization <= l.finalizationSteps
    && (t.planExceeded ==> !t.finalizing) && (!t.finalizing ==> t.finalization == 0)
    && t.steps <= t.budget + l.maxPlanSteps + l.finalizationSteps && t.attempts <= l.maxProviderAttempts * t.steps
  }

  /** Outside a request, every step is counted by exactly one of the three counters. */
  predicate Settled(t: Tally) {
    t.steps == t.work + t.plan + t.finalization
  }

  ghost predicate TallyAt(l: Limits, p: Phase, t: Tally) {
    && TallyOk(l, t)
    && match p
       case Ready => Settled(t) && !t.planExceeded
       case Checking => Settled(t) && !t.planExceeded
       case Handling => Settled(t)
       case Executing => Settled(t)
       case Requesting =>
         && t.requestIsFinalization == t.finalizing && !t.planExceeded
         && t.steps == t.work + t.plan + t.finalization + (if t.finalizing then 0 else 1)
         && (!t.finalizing ==> t.work < t.budget)
         && t.attempts + l.maxProviderAttempts <= l.maxProviderAttempts * t.steps
       case _ => true
  }

  /** The results that the messages from `start` on still owe. */
  function OwedFrom(h: seq<Message>, start: nat): Option<seq<string>> {
    if |h| < start then None
    else if |h| == start then Some([])
    else Next(OwedFrom(h[..|h| - 1], start), h[|h| - 1])
  }

  lemma {:induction false} OwedIsAwaited(h: seq<Message>, start: nat)
    requires start <= |h|
    ensures OwedFrom(h, start) == Awaited(h[start..])
    decreases |h|
  {
    if start < |h| {
      OwedIsAwaited(h[..|h| - 1], start);
      assert h[start..][..|h| - 1 - start] == h[..|h| - 1][start..];
    }
  }

  /** What the run itself owes, whatever the history that it was given owed. */
  function OwedBy(k: Talk): Option<seq<string>> {
    OwedFrom(k.history, k.runStart)
  }

  predicate Even(k: Talk) {
    OwedBy(k) == Some([])
  }

  ghost predicate TalkOk(k: Talk) {
    && (forall r :: r in k.requests ==> OwedFrom(r, k.runStart) == Some([]))
    && OwedBy(k).Some? && k.runStart <= |k.history|
    && Reminders(k.history, k.runStart) == if k.completionDeferred then 1 else 0
  }

  /** Between groups nothing is owed; during a group exactly its calls are. */
  ghost predicate TalkAt(p: Phase, k: Talk, planExceeded: bool) {
    && TalkOk(k)
    && match p
       case Ready => Even(k)
       case Requesting => Even(k)
       case Checking => Even(k) && k.answer.Some?
       case Handling =>
         && k.answer.Some? && OwedBy(k) == Some(Ids(k.answer.value.toolCalls))
         && (planExceeded ==> k.answer.value.toolCalls != [])
       case Executing => OwedBy(k) == Some(Ids(k.pending)) && (planExceeded ==> k.pending != [])
       case _ => true
  }

  /** The repeat counter is exact, and dispatched calls never repeat up to the limit. */
  ghost predicate WatchOk(l: Limits, w: Watch) {
    && w.lastSignature == (if w.signatures == [] then None else Some(w.signatures[|w.signatures| - 1]))
    && w.repeatCount == RepeatCount(w.signatures)
    && (if l.repeatAbortAt == 0 then w.executed == [] else NoBlock(w.executed, l.repeatAbortAt))
    && (w.executed == w.signatures ||
        (w.signatures != [] && w.executed == w.signatures[..|w.signatures| - 1] && w.repeatCount >= l.repeatAbortAt))
    && w.failedRounds == Failures(w.rounds)
    && forall i :: 0 < i < |w.rounds| ==> Failures(w.rounds[..i]) < l.toolFailureRoundLimit
  }

  ghost predicate RepeatFired(w: Watch) {
    w.executed != w.signatures
  }

  ghost predicate FailureFired(l: Limits, w: Watch) {
    w.rounds != [] && Failures(w.rounds) >= l.toolFailureRoundLimit
  }

  ghost predicate Calm(l: Limits, w: Watch) {
    !RepeatFired(w) && !FailureFired(l, w)
  }

  ghost predicate ProofOk(e: Proof) {
    && e.mutated.Keys == WrittenPaths(e.effects)
    && (e.verification == Verdict(e.effects) || (e.mutated == map[] && e.verification == NotApplicable))
  }

  /** Every budget extension is paid for by a plan step completed since the baseline. */
  ghost predicate CreditOk(e: Env, c: Credit) {
    && ValidLedger(e.text, c.plan) && (c.initialized <==> c.plan.Some?)
    && (e.plan.Some? ==> c.plan.Some? && c.baseline == CountOf(StepsOf(e.plan), Completed))
    && c.baseline + c.extensions <= c.completedAtLast <= CountOf(StepsOf(c.plan), Completed)
    && (c.extensions > 0 ==> c.completedAtLast <= PLAN_MAX_STEPS - 1)
  }

  /** A final answer reports verification honestly, and never skips the reminder while work steps remain. */
  ghost predicate Justified(t: Tally, k: Talk, e: Proof) {
    && (e.verification == Verified <==> e.mutated != map[] && Verdict(e.effects) == Verified)
    && (e.mutated != map[] && e.verification != Verified ==> k.completionDeferred || t.work >= t.budget)
  }

  /** What the stop reason of a finished run says about the whole run. */
  ghost predicate Explained(l: Limits, reason: StopReason, t: Tally, k: Talk, w: Watch, e: Proof) {
    && (reason == FinalAnswer ==> Justified(t, k, e))
    && (reason == ToolFailureLimit <==> FailureFired(l, w))
    && (reason == RepeatedToolCall <==> RepeatFired(w))
  }

  /** At most one steer is delivered per step. */
  predicate SteersOk(s: LoopState) {
    s.steers <= s.boundary <= s.tally.steps
  }

  ghost predicate Sound(e: Env, s: LoopState) {
    && TallyOk(e.limits, s.tally) && TalkOk(s.talk) && WatchOk(e.limits, s.watch)
    && ProofOk(s.proof) && CreditOk(e, s.credit) && SteersOk(s)
  }

  /** The rules of every reachable state. */
  ghost predicate Valid(e: Env, s: LoopState) {
    && Sound(e, s) && s.phase != Initializing
    && TallyAt(e.limits, s.phase, s.tally) && TalkAt(s.phase, s.talk, s.tally.planExceeded)
    && (if Working(s.phase) then s.end.None? && Calm(e.limits, s.watch)
        else s.end.Some? && Explained(e.limits, s.end.value.reason, s.tally, s.talk, s.watch, s.proof))
  }

  function Rank(p: Phase): nat {
    match p
    case Requesting => 4
    case Handling => 3
    case Executing => 2
    case Checking => 2
    case Ready => 1
    case _ => 0
  }

  /** What is left of the run: it shrinks with every handler. */
  function Left(e: Env, s: LoopState): int {
    8 * (Bound(e.limits) - s.tally.steps) + Rank(s.phase)
  }

  // ---------------------------------------------------------------- transitions

  lemma AttemptRoom(l: Limits, attempts: nat, steps: nat)
    requires attempts <= l.maxProviderAttempts * steps
    ensures attempts + l.maxProviderAttempts <= l.maxProviderAttempts * (steps + 1)
  {}

  lemma GuardedSnoc(l: Limits, w: Watch, x: string)
    requires WatchOk(l, w) && Calm(l, w)
    ensures var w1 := Watched(w, x);
      if w1.repeatCount < l.repeatAbortAt then
        WatchOk(l, w1.(executed := w.executed + [x])) && Calm(l, w1.(executed := w.executed + [x]))
      else WatchOk(l, w1) && RepeatFired(w1) && !FailureFired(l, w1)
  {
    var s := w.signatures + [x];
    assert s[..|w.signatures|] == w.signatures;
    if RepeatCount(s) < l.repeatAbortAt {
      NoBlockSnoc(w.executed, x, l.repeatAbortAt);
    }
  }

  lemma RoundSnoc(l: Limits, w: Watch, f: Flags)
    requires WatchOk(l, w) && Calm(l, w)
    ensures var w1 := Rounded(w, f);
      WatchOk(l, w1) && !RepeatFired(w1) && (FailureFired(l, w1) <==> w1.failedRounds >= l.toolFailureRoundLimit)
  {
    FailuresSnoc(w.rounds, Round(f.anySuccess, f.denied));
    var rounds1 := w.rounds + [Round(f.anySuccess, f.denied)];
    forall i | 0 < i < |rounds1| ensures Failures(rounds1[..i]) < l.toolFailureRoundLimit {
      if i < |w.rounds| { assert rounds1[..i] == w.rounds[..i]; } else { assert rounds1[..i] == w.rounds; }
    }
  }

  lemma TalkSnoc(k: Talk, m: Message)
    requires TalkOk(k) && Next(OwedBy(k), m).Some?
    ensures OwedFrom(k.history + [m], k.runStart) == Next(OwedBy(k), m)
    ensures !IsReminder(m) ==> TalkOk(k.(history := k.history + [m]))
    ensures IsReminder(m) && !k.completionDeferred ==>
      TalkOk(k.(history := k.history + [m], completionDeferred := true))
  {
    assert (k.history + [m])[..|k.history|] == k.history;
    RemindersSnoc(k.history, k.runStart, m);
  }

  /** A message of the loop itself keeps a paired conversation paired. */
  lemma SayKeeps(e: Env, s: LoopState, content: string, source: string)
    requires TalkOk(s.talk) && Even(s.talk) && source != "completion_policy"
    ensures var k := Say(s, Note(content, source)).talk; TalkOk(k) && Even(k)
  {
    TalkSnoc(s.talk, Note(content, source));
  }

  lemma FinishedIsValid(e: Env, s: LoopState, status: RunStatus, reason: StopReason, text: Option<string>)
    requires Sound(e, s) && Explained(e.limits, reason, s.tally, s.talk, s.watch, s.proof)
    ensures Valid(e, Finished(s, status, reason, text)) && !Working(Finished(s, status, reason, text).phase)
  {
  }

  /** A poll touches the conversation, the boundary and the count of steers, and nothing else. */
  lemma PollShape(e: Env, s: LoopState)
    requires SteersOk(s)
    ensures var p := Poll(e, s); var s1 := p.state;
      && s1 == s.(clock := s1.clock, boundary := s1.boundary, steers := s1.steers, talk := s1.talk)
      && (s1.talk == s.talk || exists m :: s1.talk == Say(s, Note(m, "steer")).talk)
      && SteersOk(s1)
      && (p.delivered <==> s1.steers == s.steers + 1) && (!p.delivered ==> s1.talk == s.talk)
  {}

  lemma PollKeeps(e: Env, s: LoopState)
    requires Valid(e, s) && (s.phase == Ready || s.phase == Checking)
    ensures var s1 := Poll(e, s).state;
      Valid(e, s1) && s1.phase == s.phase && s1.tally == s.tally && s1.talk.answer == s.talk.answer
  {
    PollShape(e, s);
    var s1 := Poll(e, s).state;
    if s1.talk != s.talk {
      var m :| s1.talk == Say(s, Note(m, "steer")).talk;
      SayKeeps(e, s, m, "steer");
    }
  }

  lemma BudgetedKeeps(e: Env, s: LoopState)
    requires Valid(e, s) && s.phase == Ready
    ensures var s1 := Budgeted(e, s);
      && Valid(e, s1) && s1.tally.steps == s.tally.steps
      && (s1.end.None? ==>
            && s1.phase == Ready
            && if s1.tally.finalizing then s1.tally.finalization < e.limits.finalizationSteps
               else s1.tally.work < s1.tally.budget)
  {
    if s.tally.finalizing {
      FinishedIsValid(e, s, RunError, MaxSteps, None);
    } else if s.tally.work >= s.tally.budget {
      if CanExtend(e.limits, s.tally, s.credit) {
        OpenPlanIsUnfinished(e.text, StepsOf(s.credit.plan));
      } else {
        SayKeeps(e, s, "finalize", "step_budget");
      }
    }
  }

  lemma CountedKeeps(l: Limits, t: Tally)
    requires TallyAt(l, Ready, t)
    requires if t.finalizing then t.finalization < l.finalizationSteps else t.work < t.budget
    ensures TallyAt(l, Requesting, Counted(t))
  {
    AttemptRoom(l, t.attempts, t.steps);
  }

  lemma ViewedKeeps(e: Env, s: LoopState)
    requires Valid(e, s) && s.phase == Ready
    requires if s.tally.finalizing then s.tally.finalization < e.limits.finalizationSteps
             else s.tally.work < s.tally.budget
    ensures var h := Viewed(e, s);
      && Valid(e, h.state)
      && (h.fault.None? ==> Left(e, h.state) < Left(e, s) && h.state.phase == Requesting)
      && (h.fault.Some? ==> h.state == Tick(s) && h.fault.value in {ContextOverflow, InternalError})
  {
    if e.world.view(s.clock).Built? {
      CountedKeeps(e.limits, s.tally);
      ReadyMoves(e, s);
    }
  }

  lemma ReadyMoves(e: Env, s: LoopState)
    requires Valid(e, s) && s.phase == Ready && TallyAt(e.limits, Requesting, Counted(s.tally))
    ensures Valid(e, Tick(s).(tally := Counted(s.tally), phase := Requesting))
  {}

  lemma ReadyKeeps(e: Env, s: LoopState)
    requires Valid(e, s) && s.phase == Ready
    ensures var h := ReadyStep(e, s);
      && Valid(e, h.state)
      && (h.fault.None? ==> Left(e, h.state) < Left(e, s) && (h.state.phase == Requesting || !Working(h.state.phase)))
      && (h.fault.Some? ==>
            && h.state.phase == Ready && h.state.tally.steps == s.tally.steps
            && h.fault.value in {ContextOverflow, InternalError})
  {
    PollKeeps(e, s);
    BudgetedKeeps(e, Poll(e, s).state);
    var s1 := Budgeted(e, Poll(e, s).state);
    if s1.end.None? { ViewedKeeps(e, s1); }
  }

  // ---------------------------------------------------------------- REQUESTING

  /** While asking, the attempts stay within the room of the present step. */
  ghost predicate Asking(e: Env, s: LoopState, attempt: nat) {
    && Sound(e, s) && Calm(e.limits, s.watch) && s.end.None? && s.phase == Requesting && Even(s.talk)
    && s.tally.requestIsFinalization == s.tally.finalizing && !s.tally.planExceeded
    && s.tally.steps == s.tally.work + s.tally.plan + s.tally.finalization + (if s.tally.finalizing then 0 else 1)
    && (!s.tally.finalizing ==> s.tally.work < s.tally.budget)
    && 1 <= attempt <= e.limits.maxProviderAttempts + 1
    && s.tally.attempts + e.limits.maxProviderAttempts + 1 <= e.limits.maxProviderAttempts * s.tally.steps + attempt
  }

  lemma AttemptedKeeps(e: Env, s: LoopState, attempt: nat)
    requires Asking(e, s, attempt) && attempt <= e.limits.maxProviderAttempts
    ensures Asking(e, Attempted(s), attempt + 1)
  {
    var k := Attempted(s).talk;
    forall r | r in k.requests ensures OwedFrom(r, k.runStart) == Some([]) {
      assert r in s.talk.requests || r == s.talk.history;
    }
  }

  lemma AskingIgnoresClock(e: Env, s: LoopState, attempt: nat)
    requires Asking(e, s, attempt)
    ensures Asking(e, Tick(s), attempt)
  {}

  lemma AskingCanEnd(e: Env, s: LoopState, attempt: nat, status: RunStatus, reason: StopReason)
    requires Asking(e, s, attempt) && reason in {UserInterrupt, ModelError, ContextOverflow, InternalError}
    ensures var s1 := Finished(Tick(s), status, reason, None);
      Valid(e, s1) && !Working(s1.phase) && s1.tally.steps == s.tally.steps
  {
    AskingIgnoresClock(e, s, attempt);
    FinishedIsValid(e, Tick(s), status, reason, None);
  }

  lemma AfterFailureKeeps(e: Env, s: LoopState, retryable: bool, attempt: nat)
    requires Asking(e, s, attempt)
    ensures var a := AfterFailure(e, s, retryable, attempt - 1);
      && a.state.tally.steps == s.tally.steps
      && (if a.Over? then Valid(e, a.state) && !Working(a.state.phase) else a.Retry? && Asking(e, a.state, attempt))
  {
    AskingIgnoresClock(e, s, attempt);
    if e.world.cancelled(s.clock) {
      AskingCanEnd(e, s, attempt, RunInterrupted, UserInterrupt);
    } else {
      AskingCanEnd(e, s, attempt, RunError, ModelError);
    }
  }

  lemma AskingOnce(e: Env, s: LoopState, attempt: nat)
    requires Asking(e, s, attempt) && attempt <= e.limits.maxProviderAttempts
    ensures Asking(e, Tick(Attempted(Tick(s))), attempt + 1)
  {
    AskingIgnoresClock(e, s, attempt);
    AttemptedKeeps(e, Tick(s), attempt);
    AskingIgnoresClock(e, Attempted(Tick(s)), attempt + 1);
  }

  /** An attempt stays within the step, and leaves a finished run or room for the attempts after it. */
  ghost predicate AskedOk(e: Env, a: Asked, steps: nat, attempt: nat) {
    && a.state.tally.steps == steps
    && if a.Over? then Valid(e, a.state) && !Working(a.state.phase) else Asking(e, a.state, attempt)
  }

  lemma AttemptOnceKeeps(e: Env, s: LoopState, attempt: nat)
    requires Asking(e, s, attempt) && attempt <= e.limits.maxProviderAttempts
    ensures AskedOk(e, AttemptOnce(e, s, attempt), s.tally.steps, attempt + 1)
  {
    if e.world.cancelled(s.clock) {
      AskingCanEnd(e, s, attempt, RunInterrupted, UserInterrupt);
    } else {
      AskingOnce(e, s, attempt);
      var s1 := Attempted(Tick(s));
      var reply := e.world.reply(s1.clock);
      if reply.RequestFailed? { AfterFailureKeeps(e, Tick(s1), reply.retryable, attempt + 1); }
    }
  }

  lemma AskedLater(e: Env, a: Asked, steps: nat, attempt: nat)
    requires AskedOk(e, a, steps, attempt)
    ensures AskedOk(e, a, steps, e.limits.maxProviderAttempts + 1)
  {}

  lemma {:induction false} AttemptsKeep(e: Env, s: LoopState, attempt: nat)
    requires Asking(e, s, attempt)
    ensures AskedOk(e, Attempts(e, s, attempt), s.tally.steps, e.limits.maxProviderAttempts + 1)
    decreases e.limits.maxProviderAttempts + 1 - attempt
  {
    if attempt <= e.limits.maxProviderAttempts {
      AttemptOnceKeeps(e, s, attempt);
      var once := AttemptOnce(e, s, attempt);
      if once.Retry? {
        AttemptsKeep(e, once.state, attempt + 1);
      } else {
        AskedLater(e, once, s.tally.steps, attempt + 1);
      }
    }
  }

  lemma AnsweredTalk(k: Talk, turn: AssistantTurn)
    requires TalkOk(k) && Even(k)
    ensures var m := AssistantMessage(turn.text, turn.toolCalls, turn.reasoning, turn.continuations);
      var k1 := k.(history := k.history + [m], answer := Some(turn));
      TalkOk(k1) && OwedBy(k1) == Some(Ids(turn.toolCalls))
  {
    TalkSnoc(k, AssistantMessage(turn.text, turn.toolCalls, turn.reasoning, turn.continuations));
  }

  lemma ChargedKeeps(e: Env, s: LoopState, turn: AssistantTurn)
    requires Asking(e, s, e.limits.maxProviderAttempts + 1)
    ensures var t := Charged(e.limits, s.tally, turn);
      TallyAt(e.limits, Handling, t) && t.steps == s.tally.steps && (t.planExceeded ==> turn.toolCalls != [])
  {}

  lemma RecordedKeeps(e: Env, s: LoopState, turn: AssistantTurn)
    requires Asking(e, s, e.limits.maxProviderAttempts + 1)
    ensures var s1 := Recorded(e, s, turn); Valid(e, s1) && s1.phase == Handling && s1.tally.steps == s.tally.steps
  {
    AnsweredTalk(s.talk, turn);
    ChargedKeeps(e, s, turn);
  }

  lemma ConcludedKeeps(e: Env, a: Asked, steps: nat)
    requires AskedOk(e, a, steps, e.limits.maxProviderAttempts + 1)
    ensures var h := Concluded(e, a);
      && h.state.tally.steps == steps
      && (h.fault.None? ==> Valid(e, h.state) && (h.state.phase == Handling || !Working(h.state.phase)))
      && (h.fault.Some? ==> h.fault.value == InternalError && Asking(e, h.state, e.limits.maxProviderAttempts + 1))
  {
    var m := e.limits.maxProviderAttempts + 1;
    if !a.Over? && !a.Crashed? {
      if e.world.cancelled(a.state.clock) {
        AskingCanEnd(e, a.state, m, RunInterrupted, UserInterrupt);
      } else if a.Answer? {
        AskingIgnoresClock(e, a.state, m);
        RecordedKeeps(e, Tick(a.state), a.turn);
      } else {
        AskingCanEnd(e, a.state, m, RunError, ModelError);
      }
    }
  }

  lemma RequestKeeps(e: Env, s: LoopState)
    requires Valid(e, s) && s.phase == Requesting
    ensures var h := RequestStep(e, s);
      && (h.fault.None? ==>
            && Valid(e, h.state) && Left(e, h.state) < Left(e, s)
            && (h.state.phase == Handling || !Working(h.state.phase)))
      && (h.fault.Some? ==>
            && h.fault.value == InternalError && Asking(e, h.state, e.limits.maxProviderAttempts + 1)
            && h.state.tally.steps == s.tally.steps)
  {
    assert Asking(e, s, 1);
    AttemptsKeep(e, s, 1);
    ConcludedKeeps(e, Attempts(e, s, 1), s.tally.steps);
  }

  // ---------------------------------------------------------------- HANDLING

  lemma ResponseKeeps(e: Env, s: LoopState)
    requires Valid(e, s) && s.phase == Handling
    ensures var s1 := ResponseStep(e, s); Valid(e, s1) && Left(e, s1) < Left(e, s)
  {
    var turn := s.talk.answer.value;
    if turn.toolCalls == [] {
      FinishedIsValid(e, s, RunError, ProtocolError, None);
      ToChecking(e, s);
    } else {
      ToExecuting(e, s, turn.toolCalls);
    }
  }

  lemma ToChecking(e: Env, s: LoopState)
    requires Valid(e, s) && s.phase == Handling && s.talk.answer.value.toolCalls == []
    ensures Valid(e, s.(phase := Checking))
  {
    assert Ids(s.talk.answer.value.toolCalls) == [];
  }

  lemma ToExecuting(e: Env, s: LoopState, calls: seq<ToolCall>)
    requires Valid(e, s) && s.phase == Handling && s.talk.answer.value.toolCalls == calls && calls != []
    ensures Valid(e, s.(talk := s.talk.(pending := calls), phase := Executing))
  {}

  // ---------------------------------------------------------------- EXECUTING

  /** A result for the first open call leaves the other calls open. */
  lemma ResultAnswersFirst(k: Talk, calls: seq<ToolCall>, m: Message)
    requires TalkOk(k) && OwedBy(k) == Some(Ids(calls)) && calls != []
    requires m.ToolMessage? && m.toolCallId == calls[0].id
    ensures var k1 := k.(history := k.history + [m]); TalkOk(k1) && OwedBy(k1) == Some(Ids(calls[1..]))
  {
    assert Ids(calls)[0] == calls[0].id && Ids(calls)[1..] == Ids(calls[1..]);
    TalkSnoc(k, m);
  }

  /** Refusing calls changes the conversation only, and leaves nothing owed. */
  lemma {:induction false} RefusedAllShape(s: LoopState, calls: seq<ToolCall>, codes: seq<string>)
    requires |calls| == |codes| && TalkOk(s.talk) && OwedBy(s.talk) == Some(Ids(calls))
    ensures var s1 := RefusedAll(s, calls, codes);
      && s1 == s.(talk := s1.talk, toolCalls := s.toolCalls + |calls|)
      && s1.talk == s.talk.(history := s1.talk.history)
      && TalkOk(s1.talk) && Even(s1.talk)
    decreases |calls|
  {
    if calls != [] {
      ResultAnswersFirst(s.talk, calls, ErrorResult(calls[0], codes[0]));
      RefusedAllShape(Refused(s, calls[0], codes[0]), calls[1..], codes[1..]);
    } else {
      assert Ids(calls) == [];
    }
  }

  lemma PlannedKeeps(e: Env, c: Credit, call: ToolCall, o: Outcome)
    requires CreditOk(e, c)
    ensures CreditOk(e, Planned(e, c, call, o))
  {
    if o.plan.Some? {
      UpdateKeepsCount(e.text, c.plan, o.plan.value.proposal, o.plan.value.persisted);
    }
  }

  lemma ProvedKeeps(p: Proof, effect: Effect)
    requires ProofOk(p)
    ensures ProofOk(Proved(p, effect))
  {
    LogSnoc(p.effects, effect);
  }

  /** The state in the middle of a group: exactly `calls` are still unanswered. */
  ghost predicate InGroup(e: Env, s: LoopState, t: Tally, calls: seq<ToolCall>) {
    && Sound(e, s) && Calm(e.limits, s.watch) && s.end.None? && s.tally == t
    && OwedBy(s.talk) == Some(Ids(calls))
  }

  /** The end of a group: nothing is owed, and an abort is a repeat. */
  ghost predicate GroupOver(e: Env, g: Group, t: Tally) {
    && Sound(e, g.state) && g.state.end.None? && g.state.tally == t && Even(g.state.talk)
    && !FailureFired(e.limits, g.state.watch) && (g.flags.aborted <==> RepeatFired(g.state.watch))
  }

  lemma AbortedAllEnds(e: Env, s: LoopState, t: Tally, calls: seq<ToolCall>, f: Flags)
    requires Sound(e, s) && s.end.None? && s.tally == t && OwedBy(s.talk) == Some(Ids(calls))
    requires !FailureFired(e.limits, s.watch) && (f.aborted <==> RepeatFired(s.watch))
    ensures GroupOver(e, Group(AbortedAll(s, calls), f), t)
  {
    RefusedAllShape(s, calls, seq(|calls|, i => "ABORTED_BEFORE_DISPATCH"));
  }

  lemma RefusedKeeps(e: Env, s: LoopState, t: Tally, calls: seq<ToolCall>, code: string)
    requires InGroup(e, s, t, calls) && calls != []
    ensures InGroup(e, Refused(s, calls[0], code), t, calls[1..])
  {
    ResultAnswersFirst(s.talk, calls, ErrorResult(calls[0], code));
  }

  lemma DispatchedKeeps(e: Env, s: LoopState, t: Tally, calls: seq<ToolCall>, signature: string)
    requires InGroup(e, s, t, calls) && calls != []
    requires Watched(s.watch, signature).repeatCount < e.limits.repeatAbortAt
    ensures InGroup(e, Dispatched(e, s.(watch := Watched(s.watch, signature)), calls[0], signature), t, calls[1..])
  {
    var o := e.world.outcome(s.clock);
    var ok := Succeeds(e, s.credit, calls[0], o);
    ResultAnswersFirst(s.talk, calls, ResultOf(calls[0], o, ok));
    GuardedSnoc(e.limits, s.watch, signature);
    ProvedKeeps(s.proof, Effect(calls[0].name, ok, o.data));
    PlannedKeeps(e, s.credit, calls[0], o);
  }

  lemma GuardedKeeps(e: Env, s: LoopState, t: Tally, calls: seq<ToolCall>, signature: string, f: Flags)
    requires InGroup(e, s, t, calls) && calls != [] && !f.aborted
    ensures var c := Guarded(e, s, calls, signature, f);
      if c.Closed? then GroupOver(e, c.group, t) else InGroup(e, c.state, t, calls[1..]) && !c.flags.aborted
  {
    var s1 := s.(watch := Watched(s.watch, signature));
    if s1.watch.repeatCount >= e.limits.repeatAbortAt {
      GuardedSnoc(e.limits, s.watch, signature);
      ResultAnswersFirst(s.talk, calls, ErrorResult(calls[0], "REPEATED_TOOL_CALL"));
      AbortedAllEnds(e, Refused(s1, calls[0], "REPEATED_TOOL_CALL"), t, calls[1..], f.(aborted := true));
    } else {
      DispatchedKeeps(e, s, t, calls, signature);
    }
  }

  lemma PreparedKeeps(e: Env, s: LoopState, t: Tally, calls: seq<ToolCall>, f: Flags)
    requires InGroup(e, s, t, calls) && calls != [] && !f.aborted
    ensures var c := PreparedCall(e, s, calls, f);
      if c.Closed? then GroupOver(e, c.group, t) else InGroup(e, c.state, t, calls[1..]) && !c.flags.aborted
  {
    var s1 := Tick(s);
    if e.world.cancelled(s1.clock) {
      AbortedAllEnds(e, Tick(s1), t, calls, f.(interrupted := true));
    } else {
      GuardedKeeps(e, Tick(s1), t, calls, e.world.signature(s.clock), f);
    }
  }

  lemma CallOnceKeeps(e: Env, s: LoopState, t: Tally, calls: seq<ToolCall>, f: Flags)
    requires InGroup(e, s, t, calls) && calls != [] && !f.aborted
    ensures var c := CallOnce(e, s, calls, f);
      if c.Closed? then GroupOver(e, c.group, t) else InGroup(e, c.state, t, calls[1..]) && !c.flags.aborted
  {
    if e.world.cancelled(s.clock) {
      AbortedAllEnds(e, Tick(s), t, calls, f.(interrupted := true));
    } else if s.tally.finalizing && (calls[0].name != UPDATE_PLAN || !HasOpen(StepsOf(s.credit.plan))) {
      RefusedKeeps(e, Tick(s), t, calls, "STEP_BUDGET_EXHAUSTED");
    } else {
      PreparedKeeps(e, Tick(s), t, calls, f);
    }
  }

  lemma {:induction false} CallsKeep(e: Env, s: LoopState, t: Tally, calls: seq<ToolCall>, f: Flags)
    requires InGroup(e, s, t, calls) && !f.aborted
    ensures GroupOver(e, Calls(e, s, calls, f), t)
    decreases |calls|
  {
    if calls != [] {
      CallOnceKeeps(e, s, t, calls, f);
      var once := CallOnce(e, s, calls, f);
      if once.Further? { CallsKeep(e, once.state, t, calls[1..], once.flags); }
    } else {
      assert Ids(calls) == [];
    }
  }

  /** What a handler leaves: a reachable state, with less of the run left. */
  ghost predicate Advanced(e: Env, s: LoopState, steps: nat, rank: nat) {
    Valid(e, s) && s.tally.steps == steps && Rank(s.phase) < rank
  }

  lemma EndsAdvanced(e: Env, s: LoopState, status: RunStatus, reason: StopReason, text: Option<string>, rank: nat)
    requires Sound(e, s) && Explained(e.limits, reason, s.tally, s.talk, s.watch, s.proof) && rank > 0
    ensures Advanced(e, Finished(s, status, reason, text), s.tally.steps, rank)
  {
    FinishedIsValid(e, s, status, reason, text);
  }

  /** A round of calls that was not broken off goes on, or reaches the failure limit. */
  lemma RoundedKeeps(e: Env, s: LoopState, f: Flags)
    requires Sound(e, s) && s.end.None? && Even(s.talk) && Calm(e.limits, s.watch)
    requires Settled(s.tally) && !s.tally.planExceeded
    ensures var s2 := s.(watch := Rounded(s.watch, f));
      var failed := s2.watch.failedRounds >= e.limits.toolFailureRoundLimit;
      Advanced(e, if failed then Finished(s2, RunError, ToolFailureLimit, None)
               else s2.(phase := Ready), s.tally.steps, 2)
  {
    RoundSnoc(e.limits, s.watch, f);
    var s2 := s.(watch := Rounded(s.watch, f));
    if s2.watch.failedRounds >= e.limits.toolFailureRoundLimit {
      EndsAdvanced(e, s2, RunError, ToolFailureLimit, None, 2);
    }
  }

  lemma GroupDoneKeeps(e: Env, g: Group, t: Tally)
    requires GroupOver(e, g, t) && Settled(t) && !t.planExceeded
    ensures Advanced(e, GroupDone(e, g), t.steps, 2)
  {
    if g.flags.aborted {
      EndsAdvanced(e, g.state, RunError, RepeatedToolCall, None, 2);
    } else if g.flags.interrupted {
      EndsAdvanced(e, g.state, RunInterrupted, UserInterrupt, None, 2);
    } else if g.flags.reminderDue {
      SayKeeps(e, g.state, "repeated call", "loop_guard");
      RoundedKeeps(e, Say(g.state, Note("repeated call", "loop_guard")), g.flags);
    } else {
      RoundedKeeps(e, g.state, g.flags);
    }
  }

  /** Calls refused as a whole are all answered before the run ends. */
  lemma RefusedEnds(e: Env, s: LoopState, codes: seq<string>, reason: StopReason)
    requires Valid(e, s) && s.phase == Executing && |codes| == |s.talk.pending| && reason in {ProtocolError, MaxSteps}
    ensures Advanced(e, Finished(RefusedAll(s, s.talk.pending, codes), RunError, reason, None), s.tally.steps, 2)
  {
    RefusedAllShape(s, s.talk.pending, codes);
    EndsAdvanced(e, RefusedAll(s, s.talk.pending, codes), RunError, reason, None, 2);
  }

  lemma NothingPending(e: Env, s: LoopState)
    requires Valid(e, s) && s.phase == Executing && s.talk.pending == []
    ensures Advanced(e, s.(phase := Ready), s.tally.steps, 2)
  {
    assert Ids(s.talk.pending) == [];
  }

  lemma ExecuteKeeps(e: Env, s: LoopState)
    requires Valid(e, s) && s.phase == Executing
    ensures Advanced(e, ExecuteStep(e, s), s.tally.steps, 2)
  {
    var calls := s.talk.pending;
    if calls == [] {
      NothingPending(e, s);
    } else if exists i :: 0 <= i < |calls| && BadId(calls, i) {
      RefusedEnds(e, s, IdCodes(calls), ProtocolError);
    } else if s.tally.planExceeded {
      RefusedEnds(e, s, seq(|calls|, i => "STEP_BUDGET_EXHAUSTED"), MaxSteps);
    } else {
      CallsKeep(e, s, s.tally, calls, NO_FLAGS);
      GroupDoneKeeps(e, Calls(e, s, calls, NO_FLAGS), s.tally);
    }
  }

  // ---------------------------------------------------------------- CHECKING

  /** Without changes the verification is not applicable, whatever was verified before. */
  function Judged(s: LoopState): LoopState {
    if s.proof.mutated == map[] then s.(proof := s.proof.(verification := NotApplicable)) else s
  }

  lemma JudgedKeeps(e: Env, s: LoopState)
    requires Valid(e, s) && s.phase == Checking
    ensures Valid(e, Judged(s))
  {}

  lemma AnswerIsJustified(e: Env, s: LoopState)
    requires Valid(e, s) && s.phase == Checking && s == Judged(s)
    requires Decide(s.proof.mutated != map[], s.proof.verification, s.tally.work, s.tally.budget,
                    s.talk.completionDeferred).Complete?
    ensures Explained(e.limits, FinalAnswer, s.tally, s.talk, s.watch, s.proof)
  {}

  lemma NudgedKeeps(e: Env, s: LoopState)
    requires Valid(e, s) && s.phase == Checking
    ensures var s1 := Say(s, Note("close the plan", "plan_policy"));
      Advanced(e, s1.(phase := Ready, talk := s1.talk.(planDeferred := true)), s.tally.steps, 2)
  {
    SayKeeps(e, s, "close the plan", "plan_policy");
  }

  function Reminded(k: Talk, content: string): Talk {
    k.(history := k.history + [Note(content, "completion_policy")], completionDeferred := true)
  }

  lemma RemindedTalk(k: Talk, content: string)
    requires TalkOk(k) && Even(k) && !k.completionDeferred
    ensures TalkOk(Reminded(k, content)) && Even(Reminded(k, content))
  {
    TalkSnoc(k, Note(content, "completion_policy"));
  }

  lemma ReadyAgain(e: Env, s: LoopState, k: Talk)
    requires Valid(e, s) && s.phase == Checking && TalkOk(k) && Even(k)
    ensures Advanced(e, s.(talk := k, phase := Ready), s.tally.steps, 2)
  {}

  lemma RemindedKeeps(e: Env, s: LoopState, content: string)
    requires Valid(e, s) && s.phase == Checking && !s.talk.completionDeferred
    ensures var s1 := Say(s, Note(content, "completion_policy"));
      Advanced(e, s1.(talk := s1.talk.(completionDeferred := true), phase := Ready), s.tally.steps, 2)
  {
    RemindedTalk(s.talk, content);
    ReadyAgain(e, s, Reminded(s.talk, content));
    var s1 := Say(s, Note(content, "completion_policy"));
    assert s1.(talk := s1.talk.(completionDeferred := true), phase := Ready) ==
        s.(talk := Reminded(s.talk, content), phase := Ready);
  }

  lemma CompletionKeeps(e: Env, s: LoopState)
    requires Valid(e, s) && s.phase == Checking
    ensures Advanced(e, CompletionStep(e, s), s.tally.steps, 2)
  {
    PollKeeps(e, s);
    var polled := Poll(e, s);
    var s1 := polled.state;
    if polled.delivered {
      CheckedToReady(e, s1);
    } else if HasOpen(StepsOf(s1.credit.plan)) && !s1.talk.planDeferred && !s1.tally.finalizing {
      NudgedKeeps(e, s1);
    } else {
      JudgedKeeps(e, s1);
      var s2 := Judged(s1);
      if Decide(s2.proof.mutated != map[], s2.proof.verification, s2.tally.work, s2.tally.budget,
                s2.talk.completionDeferred).Complete? {
        AnswerIsJustified(e, s2);
        EndsAdvanced(e, s2, RunSuccess, FinalAnswer, Some(s.talk.answer.value.text), 2);
      } else {
        RemindedKeeps(e, s2, "verify first");
      }
    }
  }

  lemma CheckedToReady(e: Env, s: LoopState)
    requires Valid(e, s) && s.phase == Checking
    ensures Advanced(e, s.(phase := Ready), s.tally.steps, 2)
  {}
}
