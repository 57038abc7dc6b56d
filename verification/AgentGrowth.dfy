/** What only ever grows during a run, and what the finalization phase cannot touch. */
module AgentGrowth {
  import opened Results
  import opened Messages
  import opened Planning
  import opened Guards
  import opened Agent
  import opened AgentSpec
  import opened AgentRules
  import opened AgentRuns

  function ToolResults(h: seq<Message>): nat {
    if h == [] then 0 else ToolResults(h[..|h| - 1]) + if h[|h| - 1].ToolMessage? then 1 else 0
  }

  lemma {:induction false} ToolResultsConcat(a: seq<Message>, b: seq<Message>)
    ensures ToolResults(a + b) == ToolResults(a) + ToolResults(b)
    decreases |b|
  {
    if b == [] {
      assert a + b == a;
    } else {
      ToolResultsConcat(a, b[..|b| - 1]);
      assert (a + b)[..|a + b| - 1] == a + b[..|b| - 1];
    }
  }

  /** The budget after `n` extensions. */
  function Raised(l: Limits, budget: nat, n: nat): nat {
    if n == 0 then budget
    else
      var b := Raised(l, budget, n - 1) + l.stepBudgetIncrement;
      if b <= l.hardMaxSteps then b else l.hardMaxSteps
  }

  lemma {:induction false} RaisedTwice(l: Limits, budget: nat, m: nat, n: nat)
    ensures Raised(l, Raised(l, budget, m), n) == Raised(l, budget, m + n)
  {
    if n > 0 { RaisedTwice(l, budget, m, n - 1); }
  }

  /** Every extension adds the fixed increment, up to the hard limit. */
  lemma {:induction false} RaisedIsCapped(l: Limits, budget: nat, n: nat)
    requires budget <= l.hardMaxSteps
    ensures Raised(l, budget, n) ==
      if budget + n * l.stepBudgetIncrement <= l.hardMaxSteps then budget + n * l.stepBudgetIncrement
      else l.hardMaxSteps
  {
    if n > 0 {
      RaisedIsCapped(l, budget, n - 1);
      assert n * l.stepBudgetIncrement == (n - 1) * l.stepBudgetIncrement + l.stepBudgetIncrement;
    }
  }

  /** The outcomes from position `from` on are those of plan updates. */
  predicate PlanUpdatesOnly(effects: seq<Effect>, from: nat) {
    forall i :: from <= i < |effects| ==> effects[i].toolName == UPDATE_PLAN
  }

  /** The log of outcomes grew; while finalizing, by plan updates only, and without changing a file. */
  ghost predicate ProofGrows(finalizing: bool, p: Proof, q: Proof) {
    && p.effects <= q.effects
    && (finalizing ==> q.mutated == p.mutated && PlanUpdatesOnly(q.effects, |p.effects|))
  }

  /** The plan keeps its completed steps, and a baseline that was set stays. */
  ghost predicate PlanGrows(e: Env, c: Credit, d: Credit) {
    && CompletedIds(e.text, StepsOf(c.plan)) <= CompletedIds(e.text, StepsOf(d.plan))
    && (c.initialized ==> d.initialized && d.baseline == c.baseline)
  }

  /**
   From `s` to `t`: the history only got longer, every counted tool call put one result into it, the budget
   was raised by the extensions, and once finalizing, the run stays so, dispatches nothing but plan updates
   and changes no more files.
   */
  ghost predicate Grows(e: Env, s: LoopState, t: LoopState) {
    && s.talk.history <= t.talk.history && t.talk.runStart == s.talk.runStart
    && t.toolCalls == s.toolCalls + ToolResults(t.talk.history[|s.talk.history|..])
    && s.credit.extensions <= t.credit.extensions
    && t.tally.budget == Raised(e.limits, s.tally.budget, t.credit.extensions - s.credit.extensions)
    && (s.tally.finalizing ==> t.tally.finalizing) && ProofGrows(s.tally.finalizing, s.proof, t.proof)
    && PlanGrows(e, s.credit, t.credit)
  }

  lemma GrowsOn(e: Env, r: LoopState, s: LoopState, t: LoopState)
    requires Grows(e, r, s) && Grows(e, s, t)
    ensures Grows(e, r, t)
  {
    var a, b, c := r.talk.history, s.talk.history, t.talk.history;
    assert c[|a|..] == b[|a|..] + c[|b|..];
    ToolResultsConcat(b[|a|..], c[|b|..]);
    RaisedTwice(e.limits, r.tally.budget, s.credit.extensions - r.credit.extensions,
                t.credit.extensions - s.credit.extensions);
  }

  /** A step that leaves the history alone. */
  lemma Stays(e: Env, s: LoopState, t: LoopState)
    requires t.talk.history == s.talk.history && t.talk.runStart == s.talk.runStart && t.toolCalls == s.toolCalls
    requires t.credit.extensions == s.credit.extensions && t.tally.budget == s.tally.budget
    requires PlanGrows(e, s.credit, t.credit)
    requires (s.tally.finalizing ==> t.tally.finalizing) && ProofGrows(s.tally.finalizing, s.proof, t.proof)
    ensures Grows(e, s, t)
  {
    assert t.talk.history[|s.talk.history|..] == [];
  }

  /** A step that adds one message, counted if it is a tool result. */
  lemma Adds(e: Env, s: LoopState, t: LoopState, m: Message)
    requires t.talk.history == s.talk.history + [m] && t.talk.runStart == s.talk.runStart
    requires t.toolCalls == s.toolCalls + if m.ToolMessage? then 1 else 0
    requires t.credit.extensions == s.credit.extensions && t.tally.budget == s.tally.budget
    requires PlanGrows(e, s.credit, t.credit)
    requires (s.tally.finalizing ==> t.tally.finalizing) && ProofGrows(s.tally.finalizing, s.proof, t.proof)
    ensures Grows(e, s, t)
  {
    var added := t.talk.history[|s.talk.history|..];
    assert added == [m] && added[..0] == [];
  }

  lemma FinishedGrows(e: Env, s: LoopState, status: RunStatus, reason: StopReason, text: Option<string>)
    ensures Grows(e, s, Finished(s, status, reason, text))
  {
    Stays(e, s, Finished(s, status, reason, text));
  }

  lemma PollGrows(e: Env, s: LoopState)
    ensures Grows(e, s, Poll(e, s).state)
  {
    var t := Poll(e, s).state;
    if t.talk.history == s.talk.history {
      Stays(e, s, t);
    } else {
      Adds(e, s, t, t.talk.history[|s.talk.history|]);
    }
  }

  lemma BudgetedGrows(e: Env, s: LoopState)
    ensures Grows(e, s, Budgeted(e, s))
  {
    var t := Budgeted(e, s);
    if !s.tally.finalizing && s.tally.work >= s.tally.budget {
      if CanExtend(e.limits, s.tally, s.credit) {
        assert t.talk.history[|s.talk.history|..] == [];
        assert Raised(e.limits, s.tally.budget, 1) == t.tally.budget;
      } else {
        Adds(e, s, t, Note("finalize", "step_budget"));
      }
    } else {
      FinishedGrows(e, s, RunError, MaxSteps, None);
      Stays(e, s, s);
    }
  }

  lemma ViewedGrows(e: Env, s: LoopState)
    ensures Grows(e, s, Viewed(e, s).state)
  {
    Stays(e, s, Viewed(e, s).state);
  }

  lemma ReadyGrows(e: Env, s: LoopState)
    ensures Grows(e, s, ReadyStep(e, s).state)
  {
    var s1 := Poll(e, s).state;
    var s2 := Budgeted(e, s1);
    PollGrows(e, s);
    BudgetedGrows(e, s1);
    GrowsOn(e, s, s1, s2);
    if s2.end.None? {
      ViewedGrows(e, s2);
      GrowsOn(e, s, s2, Viewed(e, s2).state);
    }
  }

  lemma AttemptOnceGrows(e: Env, s: LoopState, attempt: nat)
    ensures Grows(e, s, AttemptOnce(e, s, attempt).state)
  {
    Stays(e, s, AttemptOnce(e, s, attempt).state);
  }

  lemma {:induction false} AttemptsGrow(e: Env, s: LoopState, attempt: nat)
    ensures Grows(e, s, Attempts(e, s, attempt).state)
    decreases e.limits.maxProviderAttempts + 1 - attempt
  {
    if attempt > e.limits.maxProviderAttempts {
      Stays(e, s, s);
    } else {
      var once := AttemptOnce(e, s, attempt);
      AttemptOnceGrows(e, s, attempt);
      if once.Retry? {
        AttemptsGrow(e, once.state, attempt + 1);
        GrowsOn(e, s, once.state, Attempts(e, once.state, attempt + 1).state);
      }
    }
  }

  lemma ConcludedGrows(e: Env, a: Asked)
    ensures Grows(e, a.state, Concluded(e, a).state)
  {
    var t := Concluded(e, a).state;
    if a.Answer? && !e.world.cancelled(a.state.clock) {
      Adds(e, a.state, t, AssistantMessage(a.turn.text, a.turn.toolCalls, a.turn.reasoning, a.turn.continuations));
    } else {
      Stays(e, a.state, t);
    }
  }

  lemma RequestGrows(e: Env, s: LoopState)
    ensures Grows(e, s, RequestStep(e, s).state)
  {
    var a := Attempts(e, s, 1);
    AttemptsGrow(e, s, 1);
    ConcludedGrows(e, a);
    GrowsOn(e, s, a.state, RequestStep(e, s).state);
  }

  lemma RefusedGrows(e: Env, s: LoopState, call: ToolCall, code: string)
    ensures Grows(e, s, Refused(s, call, code))
  {
    Adds(e, s, Refused(s, call, code), ErrorResult(call, code));
  }

  lemma {:induction false} RefusedAllGrows(e: Env, s: LoopState, calls: seq<ToolCall>, codes: seq<string>)
    requires |calls| == |codes|
    ensures Grows(e, s, RefusedAll(s, calls, codes))
    decreases |calls|
  {
    if calls == [] {
      Stays(e, s, s);
    } else {
      var s1 := Refused(s, calls[0], codes[0]);
      RefusedGrows(e, s, calls[0], codes[0]);
      RefusedAllGrows(e, s1, calls[1..], codes[1..]);
      GrowsOn(e, s, s1, RefusedAll(s1, calls[1..], codes[1..]));
    }
  }

  lemma AbortedGrows(e: Env, r: LoopState, s: LoopState, calls: seq<ToolCall>)
    requires Grows(e, r, s)
    ensures Grows(e, r, AbortedAll(s, calls))
  {
    RefusedAllGrows(e, s, calls, seq(|calls|, i => "ABORTED_BEFORE_DISPATCH"));
    GrowsOn(e, r, s, AbortedAll(s, calls));
  }

  lemma PlannedGrows(e: Env, c: Credit, call: ToolCall, o: Outcome)
    ensures PlanGrows(e, c, Planned(e, c, call, o)) && Planned(e, c, call, o).extensions == c.extensions
  {}

  lemma ProvedGrows(finalizing: bool, p: Proof, effect: Effect)
    requires finalizing ==> effect.toolName == UPDATE_PLAN
    ensures ProofGrows(finalizing, p, Proved(p, effect))
  {}

  lemma DispatchedGrows(e: Env, s: LoopState, call: ToolCall, signature: string)
    requires s.tally.finalizing ==> call.name == UPDATE_PLAN
    ensures Grows(e, s, Dispatched(e, s, call, signature))
  {
    var o := e.world.outcome(s.clock);
    PlannedGrows(e, s.credit, call, o);
    ProvedGrows(s.tally.finalizing, s.proof, Effect(call.name, Succeeds(e, s.credit, call, o), o.data));
    Adds(e, s, Dispatched(e, s, call, signature), ResultOf(call, o, Succeeds(e, s.credit, call, o)));
  }

  function StateOf(c: Called): LoopState {
    if c.Closed? then c.group.state else c.state
  }

  lemma GuardedGrows(e: Env, s: LoopState, calls: seq<ToolCall>, signature: string, f: Flags)
    requires calls != [] && (s.tally.finalizing ==> calls[0].name == UPDATE_PLAN)
    ensures Grows(e, s, StateOf(Guarded(e, s, calls, signature, f)))
  {
    var s1 := s.(watch := Watched(s.watch, signature));
    Stays(e, s, s1);
    if s1.watch.repeatCount >= e.limits.repeatAbortAt {
      RefusedGrows(e, s1, calls[0], "REPEATED_TOOL_CALL");
      GrowsOn(e, s, s1, Refused(s1, calls[0], "REPEATED_TOOL_CALL"));
      AbortedGrows(e, s, Refused(s1, calls[0], "REPEATED_TOOL_CALL"), calls[1..]);
    } else {
      DispatchedGrows(e, s1, calls[0], signature);
      GrowsOn(e, s, s1, Dispatched(e, s1, calls[0], signature));
    }
  }

  lemma PreparedGrows(e: Env, s: LoopState, calls: seq<ToolCall>, f: Flags)
    requires calls != [] && (s.tally.finalizing ==> calls[0].name == UPDATE_PLAN)
    ensures Grows(e, s, StateOf(PreparedCall(e, s, calls, f)))
  {
    var s2 := Tick(Tick(s));
    Stays(e, s, s2);
    if e.world.cancelled(Tick(s).clock) {
      AbortedGrows(e, s, s2, calls);
    } else {
      GuardedGrows(e, s2, calls, e.world.signature(s.clock), f);
      GrowsOn(e, s, s2, StateOf(PreparedCall(e, s, calls, f)));
    }
  }

  lemma CallOnceGrows(e: Env, s: LoopState, calls: seq<ToolCall>, f: Flags)
    requires calls != []
    ensures Grows(e, s, StateOf(CallOnce(e, s, calls, f)))
  {
    var s1 := Tick(s);
    Stays(e, s, s1);
    if e.world.cancelled(s.clock) {
      AbortedGrows(e, s, s1, calls);
    } else if s.tally.finalizing && (calls[0].name != UPDATE_PLAN || !HasOpen(StepsOf(s.credit.plan))) {
      RefusedGrows(e, s1, calls[0], "STEP_BUDGET_EXHAUSTED");
      GrowsOn(e, s, s1, Refused(s1, calls[0], "STEP_BUDGET_EXHAUSTED"));
    } else {
      PreparedGrows(e, s1, calls, f);
      GrowsOn(e, s, s1, StateOf(PreparedCall(e, s1, calls, f)));
    }
  }

  lemma {:induction false} CallsGrow(e: Env, s: LoopState, calls: seq<ToolCall>, f: Flags)
    ensures Grows(e, s, Calls(e, s, calls, f).state)
    decreases |calls|
  {
    if calls == [] {
      Stays(e, s, s);
    } else {
      CallOnceGrows(e, s, calls, f);
      var once := CallOnce(e, s, calls, f);
      if once.Further? {
        CallsGrow(e, once.state, calls[1..], once.flags);
        GrowsOn(e, s, once.state, Calls(e, once.state, calls[1..], once.flags).state);
      }
    }
  }

  lemma GroupDoneGrows(e: Env, g: Group)
    ensures Grows(e, g.state, GroupDone(e, g))
  {
    var t := GroupDone(e, g);
    if !g.flags.aborted && !g.flags.interrupted && g.flags.reminderDue {
      Adds(e, g.state, t, Note("repeated call", "loop_guard"));
    } else {
      Stays(e, g.state, t);
    }
  }

  lemma ExecuteGrows(e: Env, s: LoopState)
    ensures Grows(e, s, ExecuteStep(e, s))
  {
    var calls := s.talk.pending;
    if calls == [] {
      Stays(e, s, ExecuteStep(e, s));
    } else if exists i :: 0 <= i < |calls| && BadId(calls, i) {
      RefusedAllGrows(e, s, calls, IdCodes(calls));
      EndGrows(e, s, RefusedAll(s, calls, IdCodes(calls)), ProtocolError);
    } else if s.tally.planExceeded {
      RefusedAllGrows(e, s, calls, seq(|calls|, i => "STEP_BUDGET_EXHAUSTED"));
      EndGrows(e, s, RefusedAll(s, calls, seq(|calls|, i => "STEP_BUDGET_EXHAUSTED")), MaxSteps);
    } else {
      var g := Calls(e, s, calls, NO_FLAGS);
      CallsGrow(e, s, calls, NO_FLAGS);
      GroupDoneGrows(e, g);
      GrowsOn(e, s, g.state, GroupDone(e, g));
    }
  }

  lemma EndGrows(e: Env, r: LoopState, s: LoopState, reason: StopReason)
    requires Grows(e, r, s)
    ensures Grows(e, r, Finished(s, RunError, reason, None))
  {
    FinishedGrows(e, s, RunError, reason, None);
    GrowsOn(e, r, s, Finished(s, RunError, reason, None));
  }

  lemma CompletionGrows(e: Env, s: LoopState)
    requires s.talk.answer.Some?
    ensures Grows(e, s, CompletionStep(e, s))
  {
    var s1 := Poll(e, s).state;
    var t := CompletionStep(e, s);
    PollGrows(e, s);
    if t.talk.history == s1.talk.history {
      Stays(e, s1, t);
    } else {
      Adds(e, s1, t, t.talk.history[|s1.talk.history|]);
    }
    GrowsOn(e, s, s1, t);
  }

  lemma RunStepGrows(e: Env, s: LoopState)
    requires Working(s.phase) && ((s.phase.Handling? || s.phase.Checking?) ==> s.talk.answer.Some?)
    ensures Grows(e, s, RunStep(e, s))
  {
    var s1 := Tick(s);
    Stays(e, s, s1);
    if e.world.cancelled(s.clock) {
      FinishedGrows(e, s1, RunInterrupted, UserInterrupt, None);
      GrowsOn(e, s, s1, Stop(s1));
    } else {
      var h := Handle(e, s1);
      HandleGrows(e, s1);
      GrowsOn(e, s, s1, h.state);
      if h.fault.Some? { EndGrows(e, s, h.state, h.fault.value); }
    }
  }

  lemma HandleGrows(e: Env, s: LoopState)
    requires Working(s.phase) && ((s.phase.Handling? || s.phase.Checking?) ==> s.talk.answer.Some?)
    ensures Grows(e, s, Handle(e, s).state)
  {
    match s.phase
    case Ready => ReadyGrows(e, s);
    case Requesting => RequestGrows(e, s);
    case Handling => Stays(e, s, ResponseStep(e, s));
    case Executing => ExecuteGrows(e, s);
    case Checking => CompletionGrows(e, s);
  }

  /**
   Over the rest of any run: the history is only appended to, the tool-call count is the number of results, the
   budget is the start budget plus the extensions up to the hard limit, completed plan steps stay completed,
   and a run that is finalizing stays so, dispatches only plan updates and changes no more files.
   */
  lemma {:induction false} RunGrows(e: Env, s: LoopState)
    requires Valid(e, s)
    ensures Grows(e, s, Run(e, s))
    decreases Left(e, s)
  {
    if Working(s.phase) {
      RunStepKeeps(e, s);
      RunStepGrows(e, s);
      RunGrows(e, RunStep(e, s));
      GrowsOn(e, s, RunStep(e, s), Run(e, s));
    } else {
      Stays(e, s, s);
    }
  }

  lemma WholeRunGrows(e: Env, t: Turn)
    requires e.limits.Valid() && ValidLedger(e.text, e.plan)
    ensures var end := WholeRun(e, t);
      && t.history <= end.talk.history && end.talk.runStart <= |end.talk.history|
      && end.toolCalls == ToolResults(end.talk.history[end.talk.runStart..])
      && (var raised := e.limits.baseMaxSteps + end.credit.extensions * e.limits.stepBudgetIncrement;
          end.tally.budget == if raised <= e.limits.hardMaxSteps then raised else e.limits.hardMaxSteps)
      && CompletedIds(e.text, StepsOf(e.plan)) <= CompletedIds(e.text, StepsOf(end.credit.plan))
  {
    var s := Begun(e, t);
    BegunIsValid(e, t);
    RunGrows(e, s);
    var end := WholeRun(e, t);
    RaisedIsCapped(e.limits, e.limits.baseMaxSteps, end.credit.extensions);
  }

  /** The largest work budget that extensions can lead to: one for every plan step but the last. */
  function MostWork(l: Limits): nat {
    if l.baseMaxSteps + (PLAN_MAX_STEPS - 1) * l.stepBudgetIncrement <= l.hardMaxSteps
    then l.baseMaxSteps + (PLAN_MAX_STEPS - 1) * l.stepBudgetIncrement else l.hardMaxSteps
  }

  lemma FewerIncrements(few: nat, many: nat, increment: nat)
    requires few <= many
    ensures few * increment <= many * increment
  {}

  /**
   A run takes no more steps than its extended work budget, its planning steps and its finalization steps together.
   */
  lemma RunIsShort(e: Env, t: Turn)
    requires e.limits.Valid() && ValidLedger(e.text, e.plan)
    ensures WholeRun(e, t).tally.steps <= MostWork(e.limits) + e.limits.maxPlanSteps + e.limits.finalizationSteps
  {
    WholeRunEnds(e, t);
    WholeRunGrows(e, t);
    RunPaysForExtensions(e, t);
    FewerIncrements(WholeRun(e, t).credit.extensions, PLAN_MAX_STEPS - 1, e.limits.stepBudgetIncrement);
  }
}
