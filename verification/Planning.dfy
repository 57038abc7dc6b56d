/** The revisioned plan of one agent run: validation, acceptance and what never shrinks. */
module Planning {
  import opened Results

  const PLAN_MIN_STEPS := 2
  const PLAN_MAX_STEPS := 7
  const PLAN_STEP_MAX_CHARS := 240
  const PLAN_EXPLANATION_MAX_CHARS := 1000

  datatype Status = Pending | InProgress | Completed | Blocked

  datatype PlanStep = PlanStep(step: string, status: Status)

  datatype PlanState = PlanActive | PlanInterrupted | PlanFailed | PlanIncomplete | PlanBlocked | PlanCompleted

  datatype PlanSnapshot = PlanSnapshot(revision: nat, state: PlanState, explanation: string, steps: seq<PlanStep>)

  datatype RunStatus = RunSuccess | RunError | RunInterrupted

  /** A step as the model sent it: `text` is absent when it is no string, `status` when it is no known status. */
  datatype RawStep = RawStep(exactKeys: bool, text: Option<string>, status: Option<Status>)

  /** A proposed snapshot; the explanation is absent when it is no string, the steps when they are no array. */
  datatype Proposal = Proposal(explanation: Option<string>, steps: Option<seq<RawStep>>)

  /** String operations of the host language: trimming, joining words by one blank, case folding. */
  datatype Text = Text(strip: string -> string, squeeze: string -> string, casefold: string -> string)

  predicate IsOpen(s: PlanStep) {
    s.status.Pending? || s.status.InProgress?
  }

  predicate HasOpen(steps: seq<PlanStep>) {
    exists i :: 0 <= i < |steps| && IsOpen(steps[i])
  }

  function CountOf(steps: seq<PlanStep>, status: Status): nat {
    if steps == [] then 0
    else CountOf(steps[..|steps| - 1], status) + if steps[|steps| - 1].status == status then 1 else 0
  }

  function Identity(t: Text, s: PlanStep): string {
    t.casefold(s.step)
  }

  predicate Distinct(t: Text, steps: seq<PlanStep>) {
    forall i, j :: 0 <= i < j < |steps| ==> Identity(t, steps[i]) != Identity(t, steps[j])
  }

  /** The public plan contract. */
  predicate ValidSteps(t: Text, steps: seq<PlanStep>) {
    && PLAN_MIN_STEPS <= |steps| <= PLAN_MAX_STEPS
    && (forall i :: 0 <= i < |steps| ==> 0 < |steps[i].step| <= PLAN_STEP_MAX_CHARS)
    && Distinct(t, steps)
    && CountOf(steps, InProgress) == if HasOpen(steps) then 1 else 0
  }

  predicate RawUsable(t: Text, r: RawStep) {
    && r.exactKeys && r.text.Some? && r.status.Some?
    && 0 < |t.squeeze(r.text.value)| <= PLAN_STEP_MAX_CHARS
  }

  function Normal(t: Text, r: RawStep): PlanStep
    requires r.text.Some? && r.status.Some?
  {
    PlanStep(t.squeeze(r.text.value), r.status.value)
  }

  function Normalized(t: Text, raw: seq<RawStep>): (steps: seq<PlanStep>)
    requires forall i :: 0 <= i < |raw| ==> RawUsable(t, raw[i])
    ensures |steps| == |raw| && forall i :: 0 <= i < |raw| && RawUsable(t, raw[i]) ==> steps[i] == Normal(t, raw[i])
  {
    if raw == [] then []
    else
      assert RawUsable(t, raw[|raw| - 1]);
      Normalized(t, raw[..|raw| - 1]) + [Normal(t, raw[|raw| - 1])]
  }

  /** What a proposal has to be, whatever the ledger holds. */
  predicate Acceptable(t: Text, p: Proposal) {
    && p.explanation.Some? && |t.strip(p.explanation.value)| <= PLAN_EXPLANATION_MAX_CHARS
    && p.steps.Some?
    && (forall i :: 0 <= i < |p.steps.value| ==> RawUsable(t, p.steps.value[i]))
    && ValidSteps(t, Normalized(t, p.steps.value))
  }

  function CompletedIds(t: Text, steps: seq<PlanStep>): set<string> {
    set i | 0 <= i < |steps| && steps[i].status.Completed? :: Identity(t, steps[i])
  }

  function StepsOf(snapshot: Option<PlanSnapshot>): seq<PlanStep> {
    if snapshot.Some? then snapshot.value.steps else []
  }

  /** The ledger takes a proposal: a first plan must be open, later ones keep every completed step completed. */
  predicate Accepts(t: Text, snapshot: Option<PlanSnapshot>, p: Proposal) {
    && Acceptable(t, p)
    && (snapshot.None? ==> HasOpen(Normalized(t, p.steps.value)))
    && CompletedIds(t, StepsOf(snapshot)) <= CompletedIds(t, Normalized(t, p.steps.value))
  }

  /** The ledger after one proposal; a rejected or unpersisted one changes nothing. */
  function Updated(t: Text, snapshot: Option<PlanSnapshot>, p: Proposal, persisted: bool): Option<PlanSnapshot> {
    if Accepts(t, snapshot, p) && persisted then
      Some(PlanSnapshot((if snapshot.Some? then snapshot.value.revision else 0) + 1, PlanActive,
                        t.strip(p.explanation.value), Normalized(t, p.steps.value)))
    else snapshot
  }

  ghost predicate ValidLedger(t: Text, snapshot: Option<PlanSnapshot>) {
    snapshot.Some? ==> ValidSteps(t, snapshot.value.steps)
  }

  class PlanLedger {
    const text: Text
    var snapshot: Option<PlanSnapshot>

    ghost predicate Valid()
      reads this
    {
      ValidLedger(text, snapshot)
    }

    constructor (text: Text)
      ensures this.text == text && snapshot == None && Valid()
    {
      this.text := text;
      snapshot := None;
    }

    /** The step in progress; there is one exactly while the plan is open. */
    method ActiveStep() returns (step: Option<string>)
      requires Valid()
      ensures step.Some? <==> HasOpen(StepsOf(snapshot))
      ensures step.Some? ==> PlanStep(step.value, InProgress) in StepsOf(snapshot)
    {
      if snapshot.None? {
        return None;
      }
      var steps := snapshot.value.steps;
      for i := 0 to |steps|
        invariant CountOf(steps[..i], InProgress) == 0
      {
        assert steps[..i + 1][..i] == steps[..i];
        if steps[i].status.InProgress? {
          return Some(steps[i].step);
        }
      }
      assert steps[..|steps|] == steps;
      step := None;
    }

    function NeedsCompletionUpdate(): bool
      reads this
    {
      HasOpen(StepsOf(snapshot))
    }

    function CompletedStepCount(): nat
      reads this
    {
      CountOf(StepsOf(snapshot), Completed)
    }

    method Update(p: Proposal, persisted: bool) returns (accepted: bool)
      requires Valid()
      modifies this
      ensures Valid()
      ensures snapshot == Updated(text, old(snapshot), p, persisted)
      ensures accepted <==> Accepts(text, old(snapshot), p) && persisted
    {
      var checked := ValidatePlan(text, p);
      if checked.None? {
        return false;
      }
      var steps := checked.value.1;
      if snapshot.None? && !HasOpen(steps) {
        return false;
      }
      if snapshot.Some? {
        var kept := KeepsCompleted(text, snapshot.value.steps, steps);
        if !kept {
          return false;
        }
      }
      if !persisted {
        return false;
      }
      snapshot := Some(PlanSnapshot((if snapshot.Some? then snapshot.value.revision else 0) + 1, PlanActive,
                                    checked.value.0, steps));
      accepted := true;
    }

    /** The terminal state of the plan; steps and revision stay. */
    method Finish(status: RunStatus)
      requires Valid()
      modifies this
      ensures Valid()
      ensures old(snapshot).None? ==> snapshot.None?
      ensures old(snapshot).Some? ==>
        snapshot == Some(old(snapshot).value.(state := TerminalState(status, old(snapshot).value.steps)))
    {
      if snapshot.None? {
        return;
      }
      snapshot := Some(snapshot.value.(state := TerminalState(status, snapshot.value.steps)));
    }
  }

  function TerminalState(status: RunStatus, steps: seq<PlanStep>): PlanState {
    if status.RunInterrupted? then PlanInterrupted
    else if status.RunError? then PlanFailed
    else if HasOpen(steps) then PlanIncomplete
    else if exists i :: 0 <= i < |steps| && steps[i].status.Blocked? then PlanBlocked
    else PlanCompleted
  }

  /** No completed step of `current` is removed or reopened by `next`. */
  method KeepsCompleted(t: Text, current: seq<PlanStep>, next: seq<PlanStep>) returns (kept: bool)
    ensures kept <==> CompletedIds(t, current) <= CompletedIds(t, next)
  {
    for i := 0 to |current|
      invariant forall j :: 0 <= j < i && current[j].status.Completed? ==>
        Identity(t, current[j]) in CompletedIds(t, next)
    {
      if !current[i].status.Completed? {
        continue;
      }
      var still := StillCompleted(t, next, Identity(t, current[i]));
      if !still {
        assert Identity(t, current[i]) in CompletedIds(t, current);
        return false;
      }
    }
    kept := true;
  }

  method StillCompleted(t: Text, steps: seq<PlanStep>, id: string) returns (kept: bool)
    ensures kept <==> id in CompletedIds(t, steps)
  {
    for i := 0 to |steps|
      invariant forall j :: 0 <= j < i ==> !(steps[j].status.Completed? && Identity(t, steps[j]) == id)
    {
      if steps[i].status.Completed? && Identity(t, steps[i]) == id {
        return true;
      }
    }
    kept := false;
  }

  /** Accepts exactly the acceptable proposals, and returns them normalised. */
  method ValidatePlan(t: Text, p: Proposal) returns (r: Option<(string, seq<PlanStep>)>)
    ensures r.Some? <==> Acceptable(t, p)
    ensures r.Some? ==> r.value == (t.strip(p.explanation.value), Normalized(t, p.steps.value))
  {
    if p.explanation.None? || p.steps.None? {
      return None;
    }
    var explanation, raw := t.strip(p.explanation.value), p.steps.value;
    if |explanation| > PLAN_EXPLANATION_MAX_CHARS || !(PLAN_MIN_STEPS <= |raw| <= PLAN_MAX_STEPS) {
      return None;
    }
    var steps := NormalizeSteps(t, raw);
    if steps.None? {
      return None;
    }
    var inProgress := CountInProgress(steps.value);
    if inProgress > 1 || (HasOpen(steps.value) && inProgress != 1) {
      return None;
    }
    CountMeansOpen(steps.value);
    r := Some((explanation, steps.value));
  }

  /** The identities met so far. */
  ghost predicate Knows(t: Text, steps: seq<PlanStep>, seen: set<string>) {
    && (forall j :: 0 <= j < |steps| ==> Identity(t, steps[j]) in seen)
    && (forall id :: id in seen ==> exists j :: 0 <= j < |steps| && Identity(t, steps[j]) == id)
  }

  lemma KnowsMore(t: Text, steps: seq<PlanStep>, seen: set<string>, step: PlanStep)
    requires Knows(t, steps, seen) && Distinct(t, steps) && Identity(t, step) !in seen
    ensures Knows(t, steps + [step], seen + {Identity(t, step)}) && Distinct(t, steps + [step])
  {
    var more := steps + [step];
    forall id | id in seen + {Identity(t, step)} ensures exists j :: 0 <= j < |more| && Identity(t, more[j]) == id {
      if id in seen {
        var j :| 0 <= j < |steps| && Identity(t, steps[j]) == id;
        assert more[j] == steps[j];
      } else {
        assert Identity(t, more[|steps|]) == id;
      }
    }
  }

  lemma DuplicateIsIndistinct(t: Text, raw: seq<RawStep>, i: nat, seen: set<string>)
    requires i < |raw| && RawUsable(t, raw[i]) && forall j :: 0 <= j < i ==> RawUsable(t, raw[..i][j])
    requires Knows(t, Normalized(t, raw[..i]), seen) && Identity(t, Normal(t, raw[i])) in seen
    ensures (forall k :: 0 <= k < |raw| ==> RawUsable(t, raw[k])) ==> !Distinct(t, Normalized(t, raw))
  {
    var j :| 0 <= j < i && Identity(t, Normalized(t, raw[..i])[j]) == Identity(t, Normal(t, raw[i]));
    assert RawUsable(t, raw[..i][j]) && RawUsable(t, raw[i]);
    if forall k :: 0 <= k < |raw| ==> RawUsable(t, raw[k]) {
      var steps := Normalized(t, raw);
      assert Identity(t, steps[j]) == Identity(t, steps[i]);
    }
  }

  method NormalizeSteps(t: Text, raw: seq<RawStep>) returns (r: Option<seq<PlanStep>>)
    ensures r.Some? <==> (forall i :: 0 <= i < |raw| ==> RawUsable(t, raw[i])) && Distinct(t, Normalized(t, raw))
    ensures r.Some? ==> r.value == Normalized(t, raw)
  {
    var steps: seq<PlanStep>, seen: set<string> := [], {};
    for i := 0 to |raw|
      invariant forall j :: 0 <= j < i ==> RawUsable(t, raw[j])
      invariant steps == Normalized(t, raw[..i])
      invariant Knows(t, steps, seen) && Distinct(t, steps)
    {
      assert raw[..i + 1][..i] == raw[..i];
      if !RawUsable(t, raw[i]) {
        return None;
      }
      var step := Normal(t, raw[i]);
      if Identity(t, step) in seen {
        DuplicateIsIndistinct(t, raw, i, seen);
        return None;
      }
      KnowsMore(t, steps, seen, step);
      seen := seen + {Identity(t, step)};
      steps := steps + [step];
    }
    assert raw[..|raw|] == raw;
    r := Some(steps);
  }

  method CountInProgress(steps: seq<PlanStep>) returns (n: nat)
    ensures n == CountOf(steps, InProgress)
  {
    n := 0;
    for i := 0 to |steps|
      invariant n == CountOf(steps[..i], InProgress)
    {
      assert steps[..i + 1][..i] == steps[..i];
      if steps[i].status.InProgress? {
        n := n + 1;
      }
    }
    assert steps[..|steps|] == steps;
  }

  lemma {:induction false} CountMeansOpen(steps: seq<PlanStep>)
    ensures CountOf(steps, InProgress) > 0 ==> HasOpen(steps)
  {
    if steps != [] {
      CountMeansOpen(steps[..|steps| - 1]);
      assert forall i :: 0 <= i < |steps| - 1 ==> steps[..|steps| - 1][i] == steps[i];
    }
  }
}
