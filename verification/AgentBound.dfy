/**
 For all limits that a run can make use of, a run that takes every step it may: planning, extended work,
 finalization.
 */
module AgentBound {
  import opened Results
  import opened Messages
  import opened Planning
  import opened PlanLaws
  import opened Agent
  import opened AgentSpec
  import opened AgentRules
  import opened AgentRuns
  import opened AgentGrowth

  // ---------------------------------------------------------------- a plan of seven steps

  const PLAIN := Text((s: string) => s, (s: string) => s, (s: string) => s)

  function StepName(k: nat): string {
    seq(k + 1, _ => 'x')
  }

  function StatusAt(done: nat, k: nat): Status {
    if k < done then Completed else if k == done then InProgress else Pending
  }

  /** The plan with its first `done` steps completed. */
  function StepsWith(done: nat): seq<PlanStep> {
    seq(PLAN_MAX_STEPS, (k: nat) => PlanStep(StepName(k), StatusAt(done, k)))
  }

  function Proposing(done: nat): Proposal {
    Proposal(Some(""), Some(seq(PLAN_MAX_STEPS, (k: nat) => RawStep(true, Some(StepName(k)), Some(StatusAt(done, k))))))
  }

  lemma {:induction false} CountUpTo(done: nat, n: nat)
    requires n <= PLAN_MAX_STEPS
    ensures CountOf(StepsWith(done)[..n], Completed) == if n < done then n else done
    ensures CountOf(StepsWith(done)[..n], InProgress) == if done < n then 1 else 0
  {
    if n > 0 {
      CountUpTo(done, n - 1);
      assert StepsWith(done)[..n][..n - 1] == StepsWith(done)[..n - 1];
    }
  }

  lemma PlanIsValid(done: nat)
    requires done < PLAN_MAX_STEPS
    ensures ValidSteps(PLAIN, StepsWith(done)) && HasOpen(StepsWith(done))
    ensures CountOf(StepsWith(done), Completed) == done
  {
    var steps := StepsWith(done);
    CountUpTo(done, PLAN_MAX_STEPS);
    assert steps[..PLAN_MAX_STEPS] == steps;
    assert IsOpen(steps[done]);
    forall i, j | 0 <= i < j < |steps| ensures Identity(PLAIN, steps[i]) != Identity(PLAIN, steps[j]) {
      assert |steps[i].step| == i + 1 && |steps[j].step| == j + 1;
    }
  }

  lemma ProposalIsNormal(done: nat)
    ensures var raw := Proposing(done).steps.value;
      (forall i :: 0 <= i < |raw| ==> RawUsable(PLAIN, raw[i])) && Normalized(PLAIN, raw) == StepsWith(done)
  {
    var raw := Proposing(done).steps.value;
    forall i | 0 <= i < |raw| ensures RawUsable(PLAIN, raw[i]) {}
  }

  /** The ledger takes a proposal that completes no fewer steps. */
  lemma ProposalIsTaken(snapshot: Option<PlanSnapshot>, before: nat, done: nat)
    requires snapshot.Some? && snapshot.value.steps == StepsWith(before) && before <= done < PLAN_MAX_STEPS
    ensures Accepts(PLAIN, snapshot, Proposing(done))
    ensures StepsOf(Updated(PLAIN, snapshot, Proposing(done), true)) == StepsWith(done)
  {
    PlanIsValid(done);
    ProposalIsNormal(done);
    forall id | id in CompletedIds(PLAIN, StepsWith(before)) ensures id in CompletedIds(PLAIN, StepsWith(done)) {
      var i :| 0 <= i < |StepsWith(before)| && StepsWith(before)[i].status.Completed?
          && Identity(PLAIN, StepsWith(before)[i]) == id;
      assert StepsWith(done)[i].status.Completed? && Identity(PLAIN, StepsWith(done)[i]) == id;
    }
  }

  // ---------------------------------------------------------------- how the work budget is extended

  const MOST: nat := PLAN_MAX_STEPS - 1

  /**
   Limits under which calls are possible at all: an attempt, a round that may fail, a signature that may come once.
   */
  predicate Usable(l: Limits) {
    l.Valid() && l.maxProviderAttempts >= 1 && l.toolFailureRoundLimit >= 1 && l.repeatAbortAt >= 2
  }

  function Budget(l: Limits, e: nat): nat {
    Raised(l, l.baseMaxSteps, e)
  }

  /** The number of extensions when the work step after `j` others begins. */
  function Extensions(l: Limits, j: nat): nat {
    if j == 0 then 0
    else
      var e := Extensions(l, j - 1);
      if j >= Budget(l, e) && MOST > e then e + 1 else e
  }

  lemma {:induction false} BudgetGrows(l: Limits, d: nat, e: nat)
    requires l.Valid() && d <= e
    ensures 0 < l.baseMaxSteps <= Budget(l, d) <= Budget(l, e) <= l.hardMaxSteps
    ensures d < e && Budget(l, d) < l.hardMaxSteps ==> Budget(l, d) < Budget(l, e)
    decreases e
  {
    if d < e {
      BudgetGrows(l, d, e - 1);
    } else if e > 0 {
      BudgetGrows(l, 0, e - 1);
    }
  }

  lemma MostIsBudget(l: Limits)
    requires l.Valid()
    ensures MostWork(l) == Budget(l, MOST)
  {
    RaisedIsCapped(l, l.baseMaxSteps, MOST);
  }

  /** While work is left, the budget is ahead of it. */
  lemma {:induction false} BudgetIsAhead(l: Limits, j: nat)
    requires l.Valid()
    ensures Extensions(l, j) <= MOST
    ensures j < MostWork(l) ==> j < Budget(l, Extensions(l, j))
  {
    MostIsBudget(l);
    if j > 0 {
      BudgetIsAhead(l, j - 1);
      var e := Extensions(l, j - 1);
      BudgetGrows(l, e, MOST);
      if e < MOST { BudgetGrows(l, e, e + 1); }
    } else {
      BudgetGrows(l, 0, 0);
    }
  }

  /** An extension that is needed is possible. */
  lemma NeededIsPossible(l: Limits, j: nat)
    requires l.Valid() && 0 < j < MostWork(l) && j >= Budget(l, Extensions(l, j - 1))
    ensures var e := Extensions(l, j - 1); e < MOST && Budget(l, e) < l.hardMaxSteps && Extensions(l, j) == e + 1
  {
    MostIsBudget(l);
    BudgetIsAhead(l, j - 1);
    BudgetGrows(l, Extensions(l, j - 1), MOST);
  }

  /** In the end the budget is used up, and cannot be extended again. */
  lemma BudgetIsUsedUp(l: Limits)
    requires l.Valid()
    ensures 0 < MostWork(l)
    ensures var e := Extensions(l, MostWork(l) - 1);
      Budget(l, e) == MostWork(l) && (MostWork(l) < l.hardMaxSteps ==> e == MOST)
  {
    MostIsBudget(l);
    BudgetGrows(l, 0, MOST);
    var w := MostWork(l);
    var e := Extensions(l, w - 1);
    BudgetIsAhead(l, w - 1);
    BudgetGrows(l, e, MOST);
  }

  // ---------------------------------------------------------------- the world of the run

  const UPDATING := ToolCall("1", UPDATE_PLAN, "{}")
  const PLANNING := AssistantTurn("", [UPDATING, ToolCall("2", UPDATE_PLAN, "{}")], None, [])
  const WORKING := AssistantTurn("", [UPDATING, ToolCall("2", "read_file", "{}")], None, [])

  /** Every step of the run takes sixteen questions to the world. */
  function ClockAt(i: nat): nat {
    16 * i
  }

  function StepAt(c: nat): nat {
    c / 16
  }

  /** First all planning steps, then all work steps, then finalization. */
  function TurnAt(l: Limits, i: nat): AssistantTurn {
    if l.maxPlanSteps <= i < l.maxPlanSteps + MostWork(l) then WORKING else PLANNING
  }

  /** The plan steps completed by step `i`: one more than the extensions so far. */
  function DoneBy(l: Limits, i: nat): nat {
    if i < l.maxPlanSteps || MostWork(l) == 0 then 0
    else
      var j := i - l.maxPlanSteps;
      var e := Extensions(l, if j < MostWork(l) then j else MostWork(l) - 1);
      if MOST > e then e + 1 else MOST
  }

  function Script(l: Limits): World {
    World(
      (_: nat) => false,
      (_: nat) => Built,
      (c: nat) => Replied(TurnAt(l, StepAt(c))),
      (c: nat) => seq(c, _ => 'x'),
      (c: nat) => Outcome(true, "", "", None, None, Some(Attempt(Proposing(DoneBy(l, StepAt(c))), true))),
      (_: nat) => None,
      (_: nat) => true,
      (s: string) => s == "")
  }

  function Scene(l: Limits): Env {
    Env(l, Script(l), false, PLAIN, Some(PlanSnapshot(1, PlanActive, "", StepsWith(0))))
  }

  lemma SameStep(i: nat, r: nat)
    requires r < 16
    ensures StepAt(ClockAt(i) + r) == i
  {}

  // ---------------------------------------------------------------- one turn of the loop

  /** Where the run is, as far as its next turns depend on it. */
  ghost predicate At(s: LoopState, phase: Phase, t: Tally, clock: nat, done: nat, last: nat) {
    && s.phase == phase && s.tally == t && s.clock == clock && s.end.None?
    && s.credit.plan.Some? && s.credit.plan.value.steps == StepsWith(done) && done < PLAN_MAX_STEPS
    && s.credit.initialized && s.credit.completedAtLast == last
    && s.watch.failedRounds == 0 && (s.watch.lastSignature.Some? ==> |s.watch.lastSignature.value| < clock)
  }

  lemma ReadyPlain(l: Limits, s: LoopState, t: Tally, c: nat, done: nat, last: nat)
    requires At(s, Ready, t, c, done, last)
    requires if t.finalizing then t.finalization < l.finalizationSteps else t.work < t.budget
    ensures At(RunStep(Scene(l), s), Requesting, Counted(t), c + 2, done, last)
  {}

  lemma ReadyExtends(l: Limits, s: LoopState, t: Tally, c: nat, done: nat, last: nat)
    requires At(s, Ready, t, c, done, last) && !t.finalizing && t.work >= t.budget && t.budget < l.hardMaxSteps
    requires done > last
    ensures var raised := t.budget + l.stepBudgetIncrement;
      At(RunStep(Scene(l), s), Requesting,
         Counted(t.(budget := if raised <= l.hardMaxSteps then raised else l.hardMaxSteps)), c + 2, done, done)
  {
    PlanIsValid(done);
    assert CanExtend(l, t, s.credit);
  }

  lemma ReadyFinalizes(l: Limits, s: LoopState, t: Tally, c: nat, done: nat, last: nat)
    requires At(s, Ready, t, c, done, last) && !t.finalizing && t.work >= t.budget
    requires t.budget >= l.hardMaxSteps || done <= last
    requires l.finalizationSteps > 0
    ensures At(RunStep(Scene(l), s), Requesting, Counted(t.(finalizing := true)), c + 2, done, last)
  {
    PlanIsValid(done);
    assert !CanExtend(l, t, s.credit);
  }

  lemma ReadyEnds(l: Limits, s: LoopState, t: Tally, c: nat, done: nat, last: nat)
    requires At(s, Ready, t, c, done, last) && t.finalizing && t.finalization >= l.finalizationSteps
    ensures !Working(RunStep(Scene(l), s).phase) && RunStep(Scene(l), s).tally == t
  {}

  lemma OneAttempt(l: Limits, s: LoopState)
    requires l.maxProviderAttempts >= 1
    ensures Attempts(Scene(l), s, 1) == Answer(Tick(Attempted(Tick(s))), TurnAt(l, StepAt(s.clock + 1)))
  {
    assert Attempts(Scene(l), s, 1) == AttemptOnce(Scene(l), s, 1);
  }

  lemma OneRequest(l: Limits, s: LoopState)
    requires l.maxProviderAttempts >= 1
    ensures RequestStep(Scene(l), s) ==
      Handled(Recorded(Scene(l), Tick(Tick(Attempted(Tick(s)))), TurnAt(l, StepAt(s.clock + 1))), None)
  {
    OneAttempt(l, s);
  }

  lemma RequestTurn(l: Limits, s: LoopState, t: Tally, t1: Tally, c: nat, done: nat, last: nat, turn: AssistantTurn)
    returns (s1: LoopState)
    requires At(s, Requesting, t, c, done, last) && l.maxProviderAttempts >= 1
    requires turn == TurnAt(l, StepAt(c + 2)) && t1 == Charged(l, t.(attempts := t.attempts + 1), turn)
    ensures s1 == RunStep(Scene(l), s) && At(s1, Handling, t1, c + 4, done, last) && s1.talk.answer == Some(turn)
  {
    OneRequest(l, Tick(s));
    s1 := RunStep(Scene(l), s);
  }

  lemma CallsTurn(l: Limits, s: LoopState, t: Tally, c: nat, done: nat, last: nat, turn: AssistantTurn)
    returns (s1: LoopState)
    requires At(s, Handling, t, c, done, last) && s.talk.answer == Some(turn) && turn.toolCalls != []
    ensures s1 == RunStep(Scene(l), s) && At(s1, Executing, t, c + 1, done, last) && s1.talk.pending == turn.toolCalls
  {
    s1 := RunStep(Scene(l), s);
  }

  // ---------------------------------------------------------------- the calls of a step

  /** In the middle of a group: the same, with the flags of a group that goes well. */
  ghost predicate InCalls(s: LoopState, t: Tally, clock: nat, done: nat, last: nat, f: Flags) {
    At(s, Executing, t, clock, done, last) && !f.aborted && !f.interrupted
  }

  lemma DoneIsPlan(l: Limits, i: nat)
    ensures DoneBy(l, i) < PLAN_MAX_STEPS
  {}

  /** The signature at a moment is longer than all before, so it is a new one. */
  lemma NewSignature(l: Limits, w: Watch, c: nat)
    requires w.lastSignature.Some? ==> |w.lastSignature.value| < c
    ensures |Script(l).signature(c)| == c && Watched(w, Script(l).signature(c)).repeatCount == 1
  {}

  lemma GuardPasses(e: Env, s: LoopState, calls: seq<ToolCall>, signature: string, f: Flags)
    requires calls != [] && Watched(s.watch, signature).repeatCount < e.limits.repeatAbortAt
    requires Succeeds(e, s.credit, calls[0], e.world.outcome(s.clock))
    ensures var once := Guarded(e, s, calls, signature, f);
      && once.Further? && once.state == Dispatched(e, s.(watch := Watched(s.watch, signature)), calls[0], signature)
      && once.flags.anySuccess && once.flags.aborted == f.aborted && once.flags.interrupted == f.interrupted
  {}

  lemma CallIsPrepared(l: Limits, s: LoopState, calls: seq<ToolCall>, f: Flags)
    requires calls != [] && (!s.tally.finalizing || (calls[0].name == UPDATE_PLAN && HasOpen(StepsOf(s.credit.plan))))
    ensures CallOnce(Scene(l), s, calls, f) ==
      Guarded(Scene(l), Tick(Tick(Tick(s))), calls, Script(l).signature(s.clock + 1), f)
  {}

  /** What the dispatch of a call of this run changes. */
  lemma Dispatches(l: Limits, s: LoopState, call: ToolCall, signature: string, i: nat, done: nat)
    requires s.credit.plan.Some? && s.credit.plan.value.steps == StepsWith(done) && done <= DoneBy(l, i)
    requires StepAt(s.clock) == i && call.name in {UPDATE_PLAN, "read_file"} && s.credit.initialized
    ensures var s1 := Dispatched(Scene(l), s, call, signature);
      && s1.phase == s.phase && s1.tally == s.tally && s1.clock == s.clock + 1 && s1.end == s.end
      && s1.credit.plan.Some?
      && s1.credit.plan.value.steps == StepsWith(if call.name == UPDATE_PLAN then DoneBy(l, i) else done)
      && s1.credit.initialized && s1.credit.completedAtLast == s.credit.completedAtLast
      && s1.watch.failedRounds == s.watch.failedRounds && s1.watch.lastSignature == s.watch.lastSignature
    ensures Succeeds(Scene(l), s.credit, call, Script(l).outcome(s.clock))
  {
    DoneIsPlan(l, i);
    ProposalIsTaken(s.credit.plan, done, DoneBy(l, i));
  }

  lemma DispatchKeeps(l: Limits, s: LoopState, t: Tally, call: ToolCall, signature: string, i: nat, done: nat,
                      last: nat)
    requires At(s, Executing, t, s.clock, done, last) && |signature| <= s.clock && StepAt(s.clock) == i
    requires call.name in {UPDATE_PLAN, "read_file"} && done <= DoneBy(l, i)
    ensures At(Dispatched(Scene(l), s.(watch := Watched(s.watch, signature)), call, signature),
               Executing, t, s.clock + 1, if call.name == UPDATE_PLAN then DoneBy(l, i) else done, last)
    ensures Succeeds(Scene(l), s.credit, call, Script(l).outcome(s.clock))
  {
    var s1 := s.(watch := Watched(s.watch, signature));
    DoneIsPlan(l, i);
    Dispatches(l, s1, call, signature, i, done);
  }

  lemma GuardedCall(l: Limits, s: LoopState, t: Tally, calls: seq<ToolCall>, i: nat, done: nat, last: nat, f: Flags)
    requires Usable(l) && calls != [] && At(s, Executing, t, s.clock, done, last) && !f.aborted && !f.interrupted
    requires 2 <= s.clock && StepAt(s.clock) == i
    requires s.watch.lastSignature.Some? ==> |s.watch.lastSignature.value| < s.clock - 2
    requires calls[0].name in {UPDATE_PLAN, "read_file"} && done <= DoneBy(l, i)
    ensures var once := Guarded(Scene(l), s, calls, Script(l).signature(s.clock - 2), f);
      && once.Further? && once.flags.anySuccess
      && InCalls(once.state, t, s.clock + 1,
                 if calls[0].name == UPDATE_PLAN then DoneBy(l, i) else done, last, once.flags)
  {
    var signature := Script(l).signature(s.clock - 2);
    NewSignature(l, s.watch, s.clock - 2);
    DispatchKeeps(l, s, t, calls[0], signature, i, done, last);
    GuardPasses(Scene(l), s, calls, signature, f);
  }

  lemma TimePasses(s: LoopState, t: Tally, c: nat, done: nat, last: nat)
    requires At(s, Executing, t, c, done, last)
    ensures At(Tick(Tick(Tick(s))), Executing, t, c + 3, done, last)
    ensures Tick(Tick(Tick(s))).watch == s.watch && HasOpen(StepsOf(s.credit.plan))
  {
    PlanIsValid(done);
  }

  /** One call of a group passes the guards, and a plan call reports the steps completed by then. */
  lemma OneCall(l: Limits, s: LoopState, t: Tally, calls: seq<ToolCall>, i: nat, c: nat, done: nat, last: nat, f: Flags)
    requires Usable(l) && calls != [] && StepAt(c + 3) == i && InCalls(s, t, c, done, last, f)
    requires calls[0].name in {UPDATE_PLAN, "read_file"} && done <= DoneBy(l, i)
    requires t.finalizing ==> calls[0].name == UPDATE_PLAN
    ensures var once := CallOnce(Scene(l), s, calls, f);
      && once.Further? && once.flags.anySuccess
      && InCalls(once.state, t, c + 4, if calls[0].name == UPDATE_PLAN then DoneBy(l, i) else done, last, once.flags)
  {
    var s1 := Tick(Tick(Tick(s)));
    TimePasses(s, t, c, done, last);
    CallIsPrepared(l, s, calls, f);
    GuardedCall(l, s1, t, calls, i, done, last, f);
  }

  lemma TwoCalls(e: Env, s: LoopState, calls: seq<ToolCall>, f: Flags)
    requires |calls| == 2 && CallOnce(e, s, calls, f).Further?
    requires var once := CallOnce(e, s, calls, f); CallOnce(e, once.state, calls[1..], once.flags).Further?
    ensures var once := CallOnce(e, s, calls, f); var twice := CallOnce(e, once.state, calls[1..], once.flags);
      Calls(e, s, calls, f) == Group(twice.state, twice.flags)
  {
    var once := CallOnce(e, s, calls, f);
    var twice := CallOnce(e, once.state, calls[1..], once.flags);
    assert calls[1..][1..] == [];
    assert Calls(e, twice.state, [], twice.flags) == Group(twice.state, twice.flags);
    assert Calls(e, once.state, calls[1..], once.flags) == Group(twice.state, twice.flags);
  }

  /** The calls of a step are two, with good ids, and the first one updates the plan. */
  ghost predicate StepCalls(calls: seq<ToolCall>, finalizing: bool) {
    && |calls| == 2 && calls[0].name == UPDATE_PLAN
    && calls[1].name in {UPDATE_PLAN, "read_file"} && (finalizing ==> calls[1].name == UPDATE_PLAN)
    && forall k :: 0 <= k < |calls| ==> !BadId(calls, k)
  }

  lemma TurnHasCalls(l: Limits, i: nat, finalizing: bool)
    requires finalizing ==> TurnAt(l, i) == PLANNING
    ensures StepCalls(TurnAt(l, i).toolCalls, finalizing)
  {
    var calls := TurnAt(l, i).toolCalls;
    assert |calls| == 2 && calls[0] == UPDATING;
  }

  lemma BothCalls(l: Limits, s: LoopState, t: Tally, calls: seq<ToolCall>, i: nat, c: nat, done: nat, last: nat)
    returns (g: Group)
    requires Usable(l) && At(s, Executing, t, c, done, last) && done <= DoneBy(l, i) && StepCalls(calls, t.finalizing)
    requires StepAt(c + 3) == i && StepAt(c + 7) == i
    ensures g == Calls(Scene(l), s, calls, NO_FLAGS) && InCalls(g.state, t, c + 8, DoneBy(l, i), last, g.flags)
    ensures g.flags.anySuccess
  {
    var e := Scene(l);
    OneCall(l, s, t, calls, i, c, done, last, NO_FLAGS);
    var once := CallOnce(e, s, calls, NO_FLAGS);
    OneCall(l, once.state, t, calls[1..], i, c + 4, DoneBy(l, i), last, once.flags);
    TwoCalls(e, s, calls, NO_FLAGS);
    g := Calls(e, s, calls, NO_FLAGS);
  }

  lemma GroupGoesOn(l: Limits, g: Group, t: Tally, c: nat, done: nat, last: nat)
    requires Usable(l) && InCalls(g.state, t, c, done, last, g.flags) && g.flags.anySuccess
    ensures At(GroupDone(Scene(l), g), Ready, t, c, done, last)
  {}

  lemma ExecutesAll(l: Limits, s: LoopState)
    requires s.phase == Executing && StepCalls(s.talk.pending, s.tally.finalizing) && !s.tally.planExceeded
    ensures RunStep(Scene(l), s) == GroupDone(Scene(l), Calls(Scene(l), Tick(s), s.talk.pending, NO_FLAGS))
  {}

  lemma ExecuteTurn(l: Limits, s: LoopState, t: Tally, i: nat, done: nat, last: nat) returns (s1: LoopState)
    requires Usable(l) && At(s, Executing, t, ClockAt(i) + 7, done, last) && done <= DoneBy(l, i)
    requires StepCalls(s.talk.pending, t.finalizing) && !t.planExceeded
    ensures s1 == RunStep(Scene(l), s) && At(s1, Ready, t, ClockAt(i + 1), DoneBy(l, i), last)
  {
    SameStep(i, 11);
    SameStep(i, 15);
    var g := BothCalls(l, Tick(s), t, s.talk.pending, i, ClockAt(i) + 8, done, last);
    GroupGoesOn(l, g, t, ClockAt(i) + 16, DoneBy(l, i), last);
    ExecutesAll(l, s);
    s1 := RunStep(Scene(l), s);
  }

  // ---------------------------------------------------------------- a step of the run

  /** The extensions granted before step `i` begins. */
  function Granted(l: Limits, i: nat): nat {
    if i <= l.maxPlanSteps then 0
    else
      var j := i - l.maxPlanSteps;
      if j <= MostWork(l) then Extensions(l, j - 1)
      else if MostWork(l) == 0 then 0
      else Extensions(l, MostWork(l) - 1)
  }

  /** The plan steps completed before step `i` begins. */
  function DoneBefore(l: Limits, i: nat): nat {
    if i == 0 then 0 else DoneBy(l, i - 1)
  }

  /** The counters before step `i`: planning first, then work, then finalization. */
  function Spent(l: Limits, i: nat): Tally {
    var p, w := l.maxPlanSteps, MostWork(l);
    Tally(i, if i <= p then 0 else if i <= p + w then i - p else w, if i <= p then i else p,
          if i <= p + w then 0 else i - p - w, Budget(l, Granted(l, i)), i, i > p + w, i > p + w, false)
  }

  /** The counters in step `i`, while it asks. */
  function Asking(l: Limits, i: nat): Tally {
    Counted(Spent(l, i).(budget := Budget(l, Granted(l, i + 1)), finalizing := i >= l.maxPlanSteps + MostWork(l)))
  }

  lemma DoneGrows(l: Limits, i: nat)
    requires l.Valid()
    ensures DoneBefore(l, i) <= DoneBy(l, i) < PLAN_MAX_STEPS
  {}

  lemma StepIsCharged(l: Limits, i: nat)
    requires l.Valid()
    ensures var t := Asking(l, i); Charged(l, t.(attempts := t.attempts + 1), TurnAt(l, i)) == Spent(l, i + 1)
  {
    BudgetIsUsedUp(l);
    assert PlanOnly(PLANNING.toolCalls) && WORKING.toolCalls[1].name != UPDATE_PLAN;
  }

  /** A step for which the budget is not touched. */
  lemma PlainStep(l: Limits, i: nat)
    requires l.Valid() && i < MostWork(l) + l.maxPlanSteps + l.finalizationSteps
    requires i != l.maxPlanSteps + MostWork(l)
    requires l.maxPlanSteps < i < l.maxPlanSteps + MostWork(l) ==> i - l.maxPlanSteps < Spent(l, i).budget
    ensures Granted(l, i + 1) == Granted(l, i) && Asking(l, i) == Counted(Spent(l, i))
    ensures var t := Spent(l, i); if t.finalizing then t.finalization < l.finalizationSteps else t.work < t.budget
  {
    BudgetGrows(l, 0, 0);
    BudgetIsUsedUp(l);
  }

  /** The step after the last work: no budget is left, and none can be bought. */
  lemma LastStep(l: Limits)
    requires l.Valid()
    ensures var i := l.maxPlanSteps + MostWork(l);
      && Spent(l, i).work >= Spent(l, i).budget
      && (Spent(l, i).budget >= l.hardMaxSteps || DoneBefore(l, i) <= Granted(l, i))
      && Granted(l, i + 1) == Granted(l, i) && Asking(l, i) == Counted(Spent(l, i).(finalizing := true))
  {
    BudgetIsUsedUp(l);
  }

  /** A work step for which the budget has to be extended, and can be. */
  lemma PaidStep(l: Limits, i: nat)
    requires l.Valid() && l.maxPlanSteps < i < l.maxPlanSteps + MostWork(l) && i - l.maxPlanSteps >= Spent(l, i).budget
    ensures var t := Spent(l, i); var raised := t.budget + l.stepBudgetIncrement;
      && t.work >= t.budget && t.budget < l.hardMaxSteps && DoneBefore(l, i) > Granted(l, i)
      && Granted(l, i + 1) == DoneBefore(l, i)
      && Asking(l, i) == Counted(t.(budget := if raised <= l.hardMaxSteps then raised else l.hardMaxSteps))
  {
    NeededIsPossible(l, i - l.maxPlanSteps);
  }

  /** The budget decision of a step: more budget exactly when it is needed, finalization when none is left. */
  lemma StepOpens(l: Limits, s: LoopState, i: nat)
    requires l.Valid() && i < MostWork(l) + l.maxPlanSteps + l.finalizationSteps
    requires At(s, Ready, Spent(l, i), ClockAt(i), DoneBefore(l, i), Granted(l, i))
    ensures At(RunStep(Scene(l), s), Requesting, Asking(l, i), ClockAt(i) + 2, DoneBefore(l, i), Granted(l, i + 1))
  {
    var p, w, t, c := l.maxPlanSteps, MostWork(l), Spent(l, i), ClockAt(i);
    if i == p + w {
      LastStep(l);
      ReadyFinalizes(l, s, t, c, DoneBefore(l, i), Granted(l, i));
    } else if p < i < p + w && i - p >= t.budget {
      PaidStep(l, i);
      ReadyExtends(l, s, t, c, DoneBefore(l, i), Granted(l, i));
    } else {
      PlainStep(l, i);
      ReadyPlain(l, s, t, c, DoneBefore(l, i), Granted(l, i));
    }
  }

  // ---------------------------------------------------------------- the whole run

  /** The run before step `i`. */
  ghost predicate Before(l: Limits, s: LoopState, i: nat) {
    At(s, Ready, Spent(l, i), ClockAt(i), DoneBefore(l, i), Granted(l, i))
  }

  /** The second turn of a step: the answer is the one of this step. */
  lemma StepAnswers(l: Limits, s: LoopState, i: nat) returns (s1: LoopState)
    requires l.Valid() && l.maxProviderAttempts >= 1
    requires At(s, Requesting, Asking(l, i), ClockAt(i) + 2, DoneBefore(l, i), Granted(l, i + 1))
    ensures s1 == RunStep(Scene(l), s) && s1.talk.answer == Some(TurnAt(l, i))
    ensures At(s1, Handling, Spent(l, i + 1), ClockAt(i) + 6, DoneBefore(l, i), Granted(l, i + 1))
  {
    SameStep(i, 4);
    StepIsCharged(l, i);
    s1 := RequestTurn(l, s, Asking(l, i), Spent(l, i + 1), ClockAt(i) + 2, DoneBefore(l, i), Granted(l, i + 1),
                      TurnAt(l, i));
  }

  /** The last two turns of a step: its calls are taken over and dispatched. */
  lemma StepWorks(l: Limits, s: LoopState, i: nat) returns (s1: LoopState, s2: LoopState)
    requires Usable(l) && s.talk.answer == Some(TurnAt(l, i))
    requires At(s, Handling, Spent(l, i + 1), ClockAt(i) + 6, DoneBefore(l, i), Granted(l, i + 1))
    ensures s1 == RunStep(Scene(l), s) && GoesOn(s1) && s2 == RunStep(Scene(l), s1) && Before(l, s2, i + 1)
  {
    DoneGrows(l, i);
    TurnHasCalls(l, i, Spent(l, i + 1).finalizing);
    s1 := CallsTurn(l, s, Spent(l, i + 1), ClockAt(i) + 6, DoneBefore(l, i), Granted(l, i + 1), TurnAt(l, i));
    s2 := ExecuteTurn(l, s1, Spent(l, i + 1), i, DoneBefore(l, i), Granted(l, i + 1));
  }

  lemma FourTurns(l: Limits, s: LoopState, a: LoopState, b: LoopState, c: LoopState)
    requires GoesOn(s) && a == RunStep(Scene(l), s) && GoesOn(a) && b == RunStep(Scene(l), a) && GoesOn(b)
    requires c == RunStep(Scene(l), b) && GoesOn(c)
    ensures Later(Scene(l), s, 4) == RunStep(Scene(l), c)
  {
    assert Later(Scene(l), c, 1) == Later(Scene(l), RunStep(Scene(l), c), 0);
    assert Later(Scene(l), b, 2) == Later(Scene(l), c, 1);
    assert Later(Scene(l), a, 3) == Later(Scene(l), b, 2);
  }

  /** A step of the run is four turns of the main loop. */
  lemma OneStep(l: Limits, s: LoopState, i: nat)
    requires Usable(l) && Before(l, s, i) && i < MostWork(l) + l.maxPlanSteps + l.finalizationSteps
    ensures Before(l, Later(Scene(l), s, 4), i + 1)
  {
    StepOpens(l, s, i);
    var a := RunStep(Scene(l), s);
    var b := StepAnswers(l, a, i);
    var c, d := StepWorks(l, b, i);
    FourTurns(l, s, a, b, c);
  }

  /** What holds before the first step, and before the next one when before a step, holds before every one. */
  lemma {:induction false} AllSteps(e: Env, holds: (LoopState, nat) -> bool, s: LoopState, n: nat, all: nat)
    requires holds(s, 0) && n <= all
    requires forall s1, i: nat :: holds(s1, i) && i < all ==> holds(Later(e, s1, 4), i + 1)
    ensures holds(Later(e, s, 4 * n), n)
    decreases n
  {
    if n > 0 {
      AllSteps(e, holds, s, n - 1, all);
      LaterOn(e, s, 4 * (n - 1), 4);
    }
  }

  /** The run is before step `n` after four turns for each step before. */
  lemma BeforeEach(l: Limits, s: LoopState, n: nat)
    requires Usable(l) && Before(l, s, 0) && n <= MostWork(l) + l.maxPlanSteps + l.finalizationSteps
    ensures Before(l, Later(Scene(l), s, 4 * n), n)
  {
    var all := MostWork(l) + l.maxPlanSteps + l.finalizationSteps;
    forall s1, i: nat | Before(l, s1, i) && i < all ensures Before(l, Later(Scene(l), s1, 4), i + 1) {
      OneStep(l, s1, i);
    }
    AllSteps(Scene(l), (s1: LoopState, i: nat) => Before(l, s1, i), s, n, all);
  }

  /** After the last step the run ends. */
  lemma LastTurn(l: Limits, s: LoopState)
    requires l.Valid() && Before(l, s, MostWork(l) + l.maxPlanSteps + l.finalizationSteps)
    ensures var end := RunStep(Scene(l), s);
      !Working(end.phase) && end.tally.steps == MostWork(l) + l.maxPlanSteps + l.finalizationSteps
  {
    var i := MostWork(l) + l.maxPlanSteps + l.finalizationSteps;
    ReadyEnds(l, s, Spent(l, i), ClockAt(i), DoneBefore(l, i), Granted(l, i));
  }

  lemma EndsThere(e: Env, s: LoopState)
    requires Valid(e, s) && GoesOn(s) && !Working(RunStep(e, s).phase)
    ensures Run(e, s) == RunStep(e, s)
  {
    RunStepKeeps(e, s);
    assert Run(e, RunStep(e, s)) == RunStep(e, s);
  }

  lemma BegunAt(l: Limits, turn: Turn)
    requires Usable(l)
    ensures ValidLedger(PLAIN, Scene(l).plan) && Before(l, Begun(Scene(l), turn), 0)
  {
    PlanIsValid(0);
  }

  lemma AtTheLast(l: Limits, turn: Turn, n: nat) returns (s: LoopState)
    requires Usable(l) && n == MostWork(l) + l.maxPlanSteps + l.finalizationSteps
    ensures s == Later(Scene(l), Begun(Scene(l), turn), 4 * n) && GoesOn(s)
    ensures !Working(RunStep(Scene(l), s).phase) && RunStep(Scene(l), s).tally.steps == n
  {
    BegunAt(l, turn);
    BeforeEach(l, Begun(Scene(l), turn), n);
    s := Later(Scene(l), Begun(Scene(l), turn), 4 * n);
    LastTurn(l, s);
  }

  /** A whole run that is about to end after some turns has the steps counted by then. */
  lemma EndsAfter(e: Env, turn: Turn, n: nat)
    requires e.limits.Valid() && ValidLedger(e.text, e.plan)
    requires var s := Later(e, Begun(e, turn), n); GoesOn(s) && !Working(RunStep(e, s).phase)
    ensures WholeRun(e, turn) == RunStep(e, Later(e, Begun(e, turn), n))
  {
    BegunIsValid(e, turn);
    RunFromLater(e, Begun(e, turn), n);
    EndsThere(e, Later(e, Begun(e, turn), n));
  }

  /** Whatever the limits are, some run takes every step that the bound leaves it. */
  lemma BoundIsAttained(l: Limits, turn: Turn)
    requires Usable(l)
    ensures ValidLedger(PLAIN, Scene(l).plan)
    ensures WholeRun(Scene(l), turn).tally.steps == MostWork(l) + l.maxPlanSteps + l.finalizationSteps
  {
    var n := MostWork(l) + l.maxPlanSteps + l.finalizationSteps;
    PlanIsValid(0);
    var s := AtTheLast(l, turn, n);
    EndsAfter(Scene(l), turn, 4 * n);
  }
}
