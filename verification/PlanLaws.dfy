/** What every sequence of plan updates keeps. */
module PlanLaws {
  import opened Results
  import opened Planning

  /** One call of the plan tool: the proposal, and whether persisting it succeeded. */
  datatype Attempt = Attempt(proposal: Proposal, persisted: bool)

  function AfterAll(t: Text, snapshot: Option<PlanSnapshot>, attempts: seq<Attempt>): Option<PlanSnapshot>
    decreases |attempts|
  {
    if attempts == [] then snapshot
    else AfterAll(t, Updated(t, snapshot, attempts[0].proposal, attempts[0].persisted), attempts[1..])
  }

  function AcceptedCount(t: Text, snapshot: Option<PlanSnapshot>, attempts: seq<Attempt>): nat
    decreases |attempts|
  {
    if attempts == [] then 0
    else
      (if Accepts(t, snapshot, attempts[0].proposal) && attempts[0].persisted then 1 else 0)
      + AcceptedCount(t, Updated(t, snapshot, attempts[0].proposal, attempts[0].persisted), attempts[1..])
  }

  function Revision(snapshot: Option<PlanSnapshot>): nat {
    if snapshot.Some? then snapshot.value.revision else 0
  }

  /**
   Over any sequence of accepted, rejected and unpersisted updates, completed steps are never lost,
   the revision counts the accepted updates, and the contract of the plan holds throughout.
   */
  lemma {:induction false} PlanRunKeeps(t: Text, snapshot: Option<PlanSnapshot>, attempts: seq<Attempt>)
    requires ValidLedger(t, snapshot)
    ensures var end := AfterAll(t, snapshot, attempts);
      && ValidLedger(t, end)
      && CompletedIds(t, StepsOf(snapshot)) <= CompletedIds(t, StepsOf(end))
      && Revision(end) == Revision(snapshot) + AcceptedCount(t, snapshot, attempts)
      && CountOf(StepsOf(snapshot), Completed) <= CountOf(StepsOf(end), Completed)
    decreases |attempts|
  {
    if attempts != [] {
      var next := Updated(t, snapshot, attempts[0].proposal, attempts[0].persisted);
      UpdateKeepsCount(t, snapshot, attempts[0].proposal, attempts[0].persisted);
      PlanRunKeeps(t, next, attempts[1..]);
    }
  }

  lemma UpdateKeepsCount(t: Text, snapshot: Option<PlanSnapshot>, p: Proposal, persisted: bool)
    requires ValidLedger(t, snapshot)
    ensures CountOf(StepsOf(snapshot), Completed) <= CountOf(StepsOf(Updated(t, snapshot, p, persisted)), Completed)
  {
    var next := Updated(t, snapshot, p, persisted);
    if next != snapshot {
      CountIsIds(t, StepsOf(snapshot));
      CountIsIds(t, StepsOf(next));
      MoreIds(CompletedIds(t, StepsOf(snapshot)), CompletedIds(t, StepsOf(next)));
    }
  }

  lemma MoreIds(earlier: set<string>, later: set<string>)
    requires earlier <= later
    ensures |earlier| <= |later|
  {
    assert later == earlier + (later - earlier);
  }

  lemma IdsSnoc(t: Text, init: seq<PlanStep>, s: PlanStep)
    ensures CompletedIds(t, init + [s]) == CompletedIds(t, init) + if s.status.Completed? then {Identity(t, s)} else {}
  {
    var all := init + [s];
    assert all[|init|] == s;
    forall id | id in CompletedIds(t, init) ensures id in CompletedIds(t, all) {
      var i :| 0 <= i < |init| && init[i].status.Completed? && Identity(t, init[i]) == id;
      assert all[i] == init[i];
    }
  }

  /** Identities are unique, so completed steps are counted by their identities. */
  lemma {:induction false} CountIsIds(t: Text, steps: seq<PlanStep>)
    requires Distinct(t, steps)
    ensures CountOf(steps, Completed) == |CompletedIds(t, steps)|
  {
    if steps != [] {
      var n := |steps| - 1;
      var init := steps[..n];
      assert steps == init + [steps[n]];
      CountIsIds(t, init);
      IdsSnoc(t, init, steps[n]);
      assert forall i :: 0 <= i < n ==> init[i] == steps[i];
      assert Identity(t, steps[n]) !in CompletedIds(t, init);
    } else {
      assert CompletedIds(t, steps) == {};
    }
  }

  lemma {:induction false} CountsDisjoint(steps: seq<PlanStep>)
    ensures CountOf(steps, Completed) + CountOf(steps, InProgress) <= |steps|
  {
    if steps != [] { CountsDisjoint(steps[..|steps| - 1]); }
  }

  /** While a plan is open, one of its steps is in progress and at least one is not completed. */
  lemma OpenPlanIsUnfinished(t: Text, steps: seq<PlanStep>)
    requires ValidSteps(t, steps) && HasOpen(steps)
    ensures CountOf(steps, Completed) <= PLAN_MAX_STEPS - 1
  {
    CountsDisjoint(steps);
  }
}
