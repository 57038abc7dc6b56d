/** Where a whole conversation follows the call/result protocol: in requests, and at the end of a run. */
module AgentPairing {
  import opened Results
  import opened Messages
  import opened Planning
  import opened Agent
  import opened AgentSpec
  import opened AgentRules
  import opened AgentRuns
  import opened AgentGrowth
  import Context
  import ContextViews

  // ---------------------------------------------------------------- a history and what is added to it

  /**
   What is added starts with nothing owed, so it can neither answer for the history before it nor be excused by it.
   */
  lemma {:induction false} AddedAfter(a: seq<Message>, b: seq<Message>)
    requires Awaited(b).Some?
    ensures Paired(a) ==> Awaited(a + b) == Awaited(b)
    ensures !Paired(a) ==> !Paired(a + b)
    ensures !Paired(a) && b != [] ==> Awaited(a + b) == None
    decreases |b|
  {
    if b == [] {
      assert a + b == a;
    } else {
      var init, m := b[..|b| - 1], b[|b| - 1];
      assert b == init + [m] && a + b == a + init + [m];
      AwaitedSnoc(a + init, m);
      AwaitedSnoc(init, m);
      AddedAfter(a, init);
      if init == [] {
        assert a + init == a;
      } else if !Paired(a) {
        assert Awaited(a + init) == None;
      }
    }
  }

  lemma PairedTogether(h: seq<Message>, n: nat)
    requires n <= |h| && OwedFrom(h, n).Some?
    ensures WellGrouped(h) <==> WellGrouped(h[..n]) && OwedFrom(h, n) == Some([])
  {
    assert h == h[..n] + h[n..];
    OwedIsAwaited(h, n);
    AddedAfter(h[..n], h[n..]);
    PairedIff(h);
    PairedIff(h[..n]);
  }

  lemma AfterGiven(given: seq<Message>, h: seq<Message>)
    requires given <= h && OwedFrom(h, |given|).Some?
    ensures WellGrouped(h) <==> WellGrouped(given) && OwedFrom(h, |given|) == Some([])
  {
    assert h[..|given|] == given;
    PairedTogether(h, |given|);
  }

  lemma PlainSnoc(h: seq<Message>, m: Message)
    requires m.SystemMessage? || m.UserMessage?
    ensures Paired(h + [m]) <==> Paired(h)
  {
    AwaitedSnoc(h, m);
  }

  /** Opening a run adds the prompt and the request, which close no call. */
  lemma OpenedIff(t: Turn)
    ensures WellGrouped(Opened(t)) <==> WellGrouped(t.history)
  {
    PairedIff(t.history);
    PairedIff(Opened(t));
    PlainSnoc(t.history, Note(t.task, "user"));
    PlainSnoc(t.history, SystemMessage(t.system));
    PlainSnoc(t.history + [SystemMessage(t.system)], Note(t.task, "user"));
  }

  lemma RunKeepsStart(e: Env, t: Turn)
    requires e.limits.Valid() && ValidLedger(e.text, e.plan)
    ensures var k := WholeRun(e, t).talk;
      TalkOk(k) && k.runStart == |Opened(t)| <= |k.history| && k.history[..k.runStart] == Opened(t)
  {
    BegunIsValid(e, t);
    WholeRunEnds(e, t);
    RunGrows(e, Begun(e, t));
    assert Begun(e, t).talk.history == Opened(t);
  }

  // ---------------------------------------------------------------- the requests of a run

  /** Every request begins with the history that the run was opened with. */
  ghost predicate Begins(given: seq<Message>, k: Talk) {
    given <= k.history && forall r :: r in k.requests ==> given <= r
  }

  lemma {:induction false} AttemptsBegin(given: seq<Message>, e: Env, s: LoopState, attempt: nat)
    requires Begins(given, s.talk)
    ensures Begins(given, Attempts(e, s, attempt).state.talk)
    decreases e.limits.maxProviderAttempts + 1 - attempt
  {
    if attempt <= e.limits.maxProviderAttempts {
      AttemptOnceBegins(given, e, s, attempt);
      var once := AttemptOnce(e, s, attempt);
      if once.Retry? { AttemptsBegin(given, e, once.state, attempt + 1); }
    }
  }

  lemma AttemptOnceBegins(given: seq<Message>, e: Env, s: LoopState, attempt: nat)
    requires Begins(given, s.talk)
    ensures Begins(given, AttemptOnce(e, s, attempt).state.talk)
  {
    forall r | r in Attempted(s).talk.requests ensures given <= r {
      assert r in s.talk.requests || r == s.talk.history;
    }
    assert AttemptOnce(e, s, attempt).state.talk in {s.talk, Attempted(s).talk};
  }

  lemma {:induction false} RefusingSendsNothing(s: LoopState, calls: seq<ToolCall>, codes: seq<string>)
    requires |calls| == |codes|
    ensures RefusedAll(s, calls, codes).talk.requests == s.talk.requests
    decreases |calls|
  {
    if calls != [] { RefusingSendsNothing(Refused(s, calls[0], codes[0]), calls[1..], codes[1..]); }
  }

  lemma {:induction false} CallsSendNothing(e: Env, s: LoopState, calls: seq<ToolCall>, f: Flags)
    ensures Calls(e, s, calls, f).state.talk.requests == s.talk.requests
    decreases |calls|
  {
    if calls != [] {
      CallSendsNothing(e, s, calls, f);
      var once := CallOnce(e, s, calls, f);
      if once.Further? { CallsSendNothing(e, once.state, calls[1..], once.flags); }
    }
  }

  lemma CallSendsNothing(e: Env, s: LoopState, calls: seq<ToolCall>, f: Flags)
    requires calls != []
    ensures var once := CallOnce(e, s, calls, f);
      (if once.Closed? then once.group.state else once.state).talk.requests == s.talk.requests
  {
    var n := seq(|calls|, i => "ABORTED_BEFORE_DISPATCH");
    var m := seq(|calls| - 1, i => "ABORTED_BEFORE_DISPATCH");
    RefusingSendsNothing(Tick(s), calls, n);
    RefusingSendsNothing(Tick(Tick(Tick(s))), calls, n);
    var s1 := Tick(Tick(Tick(s)));
    var watched := s1.(watch := Watched(s.watch, e.world.signature(s.clock + 1)));
    RefusingSendsNothing(Refused(watched, calls[0], "REPEATED_TOOL_CALL"), calls[1..], m);
  }

  lemma ExecutingSendsNothing(e: Env, s: LoopState)
    ensures ExecuteStep(e, s).talk.requests == s.talk.requests
  {
    var calls := s.talk.pending;
    RefusingSendsNothing(s, calls, IdCodes(calls));
    RefusingSendsNothing(s, calls, seq(|calls|, i => "STEP_BUDGET_EXHAUSTED"));
    CallsSendNothing(e, s, calls, NO_FLAGS);
  }

  lemma HandleBegins(given: seq<Message>, e: Env, s: LoopState)
    requires Begins(given, s.talk) && Working(s.phase)
    requires (s.phase.Handling? || s.phase.Checking?) ==> s.talk.answer.Some?
    ensures forall r :: r in Caught(Handle(e, s)).talk.requests ==> given <= r
  {
    match s.phase
    case Requesting =>
      AttemptsBegin(given, e, s, 1);
      var a := Attempts(e, s, 1);
      assert Concluded(e, a).state.talk.requests == a.state.talk.requests;
    case Executing => ExecutingSendsNothing(e, s);
    case Ready =>
      assert Budgeted(e, Poll(e, s).state).talk.requests == s.talk.requests;
    case _ =>
  }

  lemma {:induction false} RunBegins(given: seq<Message>, e: Env, s: LoopState)
    requires Valid(e, s) && Begins(given, s.talk)
    ensures Begins(given, Run(e, s).talk)
    decreases Left(e, s)
  {
    if Working(s.phase) {
      var s1 := RunStep(e, s);
      RunStepKeeps(e, s);
      RunStepGrows(e, s);
      if !e.world.cancelled(s.clock) { HandleBegins(given, e, Tick(s)); }
      RunBegins(given, e, s1);
    }
  }

  /** A request of a run follows the protocol if and only if the history that the run was given does. */
  lemma RequestsPairedIff(e: Env, t: Turn, r: seq<Message>)
    requires e.limits.Valid() && ValidLedger(e.text, e.plan)
    requires r in WholeRun(e, t).talk.requests
    ensures Opened(t) <= r && (WellGrouped(r) <==> WellGrouped(t.history))
  {
    BegunIsValid(e, t);
    RunBegins(Opened(t), e, Begun(e, t));
    RunKeepsStart(e, t);
    AfterGiven(Opened(t), r);
    OpenedIff(t);
  }

  /**
   What the model is sent of a request, whatever was compacted, shortened or left out of it, follows the protocol if and
   only if the history that the run was given does.
   */
  lemma SentViewPairedIff(e: Env, t: Turn, r: seq<Message>, c: Context.Config, memory: Option<string>)
    requires e.limits.Valid() && ValidLedger(e.text, e.plan)
    requires r in WholeRun(e, t).talk.requests && Context.Build(c, r, memory).Ok?
    ensures WellGrouped(ContextViews.AsMessages(Context.Build(c, r, memory).value.messages)) <==> WellGrouped(t.history)
  {
    RequestsPairedIff(e, t, r);
    ContextViews.ViewKeepsProtocol(c, r, memory);
  }

  // ---------------------------------------------------------------- the end of a run

  lemma BudgetedEven(e: Env, s: LoopState)
    requires TalkOk(s.talk) && Even(s.talk)
    ensures Even(Budgeted(e, s).talk)
  {
    SayKeeps(e, s, "finalize", "step_budget");
  }

  lemma ViewedSaysNothing(e: Env, s: LoopState)
    ensures Caught(Viewed(e, s)).talk == s.talk
  {}

  lemma ReadyEnds(e: Env, s: LoopState)
    requires Valid(e, s) && s.phase == Ready
    ensures Even(Caught(ReadyStep(e, s)).talk)
  {
    PollKeeps(e, s);
    var s1 := Poll(e, s).state;
    BudgetedEven(e, s1);
    ViewedSaysNothing(e, Budgeted(e, s1));
  }

  lemma {:induction false} AskingSaysNothing(e: Env, s: LoopState, attempt: nat)
    ensures var k := Attempts(e, s, attempt).state.talk; k.history == s.talk.history && k.runStart == s.talk.runStart
    decreases e.limits.maxProviderAttempts + 1 - attempt
  {
    if attempt <= e.limits.maxProviderAttempts {
      var once := AttemptOnce(e, s, attempt);
      if once.Retry? { AskingSaysNothing(e, once.state, attempt + 1); }
    }
  }

  lemma RequestEnds(e: Env, s: LoopState)
    requires Valid(e, s) && s.phase == Requesting && !Working(Caught(RequestStep(e, s)).phase)
    ensures Even(Caught(RequestStep(e, s)).talk)
  {
    AskingSaysNothing(e, s, 1);
    var a := Attempts(e, s, 1);
    assert Concluded(e, a).state.talk == a.state.talk;
  }

  lemma ResponseEnds(e: Env, s: LoopState)
    requires Valid(e, s) && s.phase == Handling && !Working(ResponseStep(e, s).phase)
    ensures Even(ResponseStep(e, s).talk)
  {
    assert Ids(s.talk.answer.value.toolCalls) == [];
  }

  lemma GroupEnds(e: Env, g: Group)
    requires TalkOk(g.state.talk) && Even(g.state.talk)
    ensures Even(GroupDone(e, g).talk)
  {
    SayKeeps(e, g.state, "repeated call", "loop_guard");
  }

  lemma ExecuteEnds(e: Env, s: LoopState)
    requires Valid(e, s) && s.phase == Executing && !Working(ExecuteStep(e, s).phase)
    ensures Even(ExecuteStep(e, s).talk)
  {
    var calls := s.talk.pending;
    if exists i :: 0 <= i < |calls| && BadId(calls, i) {
      RefusedAllShape(s, calls, IdCodes(calls));
    } else if s.tally.planExceeded {
      RefusedAllShape(s, calls, seq(|calls|, i => "STEP_BUDGET_EXHAUSTED"));
    } else {
      CallsKeep(e, s, s.tally, calls, NO_FLAGS);
      GroupEnds(e, Calls(e, s, calls, NO_FLAGS));
    }
  }

  lemma CompletionEnds(e: Env, s: LoopState)
    requires Valid(e, s) && s.phase == Checking && !Working(CompletionStep(e, s).phase)
    ensures Even(CompletionStep(e, s).talk)
  {
    PollKeeps(e, s);
    assert CompletionStep(e, s).talk == Poll(e, s).state.talk;
  }

  /** A handler that ends the run leaves nothing owed. */
  lemma HandledEnds(e: Env, s: LoopState)
    requires Valid(e, s) && Working(s.phase) && !Working(Caught(Handle(e, s)).phase)
    ensures Even(Caught(Handle(e, s)).talk)
  {
    match s.phase
    case Ready => ReadyEnds(e, s);
    case Requesting => RequestEnds(e, s);
    case Handling => ResponseEnds(e, s);
    case Executing => ExecuteEnds(e, s);
    case Checking => CompletionEnds(e, s);
  }

  /** The model has asked for calls that nobody has begun to answer. */
  predicate CallsOpen(s: LoopState) {
    || (s.phase == Handling && s.talk.answer.Some? && s.talk.answer.value.toolCalls != [])
    || (s.phase == Executing && s.talk.pending != [])
  }

  /** The last turn of the main loop leaves calls unanswered exactly when it finds the run cancelled and calls open. */
  lemma LastTurnPairedIff(e: Env, s: LoopState)
    requires Valid(e, s) && Working(s.phase) && !Working(RunStep(e, s).phase)
    ensures Even(RunStep(e, s).talk) <==> !(e.world.cancelled(s.clock) && CallsOpen(s))
  {
    if e.world.cancelled(s.clock) {
      var k := s.talk;
      assert RunStep(e, s).talk == k;
      if s.phase == Handling { assert |Ids(k.answer.value.toolCalls)| == |k.answer.value.toolCalls|; }
      if s.phase == Executing { assert |Ids(k.pending)| == |k.pending|; }
    } else {
      TickKeeps(e, s);
      HandledEnds(e, Tick(s));
    }
  }

  /** The state in which the last turn of the main loop begins. */
  ghost function LastTurn(e: Env, s: LoopState): LoopState
    requires Valid(e, s)
    decreases Left(e, s)
  {
    if Working(s.phase) && Working(RunStep(e, s).phase) then
      RunStepKeeps(e, s);
      LastTurn(e, RunStep(e, s))
    else s
  }

  lemma {:induction false} LastTurnEnds(e: Env, s: LoopState)
    requires Valid(e, s) && Working(s.phase)
    ensures var last := LastTurn(e, s);
      Valid(e, last) && Working(last.phase) && !Working(RunStep(e, last).phase) && Run(e, s) == RunStep(e, last)
    decreases Left(e, s)
  {
    RunStepKeeps(e, s);
    if Working(RunStep(e, s).phase) { LastTurnEnds(e, RunStep(e, s)); }
  }

  ghost function LastTurnOf(e: Env, t: Turn): LoopState
    requires e.limits.Valid() && ValidLedger(e.text, e.plan)
  {
    BegunIsValid(e, t);
    LastTurn(e, Begun(e, t))
  }

  /**
   The history that a run leaves follows the protocol if and only if the given one does and the main loop did not
   find the run cancelled while calls of the model were still open.
   */
  lemma FinalHistoryPairedIff(e: Env, t: Turn)
    requires e.limits.Valid() && ValidLedger(e.text, e.plan)
    ensures var end, last := WholeRun(e, t), LastTurnOf(e, t);
      WellGrouped(end.talk.history) <==> WellGrouped(t.history) && !(e.world.cancelled(last.clock) && CallsOpen(last))
  {
    BegunIsValid(e, t);
    LastTurnEnds(e, Begun(e, t));
    LastTurnPairedIff(e, LastTurn(e, Begun(e, t)));
    RunKeepsStart(e, t);
    PairedTogether(WholeRun(e, t).talk.history, |Opened(t)|);
    OpenedIff(t);
  }
}
