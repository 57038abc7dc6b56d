/** Recording and restoring put together: which of the turns that the collector recorded the restorer takes back. */
module RecordedTurns {
  import opened Artifacts
  import opened Changes
  import opened Collector
  import opened Checkpoint
  import opened CheckpointLaws
  import opened UndoLaws
  import opened Paths
  import opened TurnCollector
  import CL = CollectorLaws
  import TU = TurnUndo

  /** A turn of the conversation: where it started, the calls it made and the change set it recorded. */
  datatype Turn = Turn(id: string, start: Files, calls: seq<CL.Call>, rows: seq<Change>)

  /** What the collector knows at the end of the turn. */
  ghost function Collected(v: Vault, t: Turn): map<Path, Entry> {
    CL.Play(v.hash, CL.FRESH, t.start, t.calls).0.files
  }

  ghost function OriginsIn(v: Vault, t: Turn): CL.Origins {
    CL.OriginsOf(v.hash, CL.FRESH, map[], t.start, t.calls)
  }

  /** The turn ran from its start to `end`, and its complete change set is what the collector reported. */
  ghost predicate Reported(v: Vault, t: Turn, end: Files) {
    && CL.HonestRun(t.start, t.calls)
    && var (st, now) := CL.Play(v.hash, CL.FRESH, t.start, t.calls);
    && st.complete && now == end
    && Reports(v, st.files, t.rows)
  }

  /**
   Every snapshot was stored, every folded rename still has its new path, an old path that exists again sorts before
   the new one, and no two renames share an old path.
   */
  ghost predicate Acceptable(v: Vault, t: Turn, end: Files) {
    && Kept(t.rows) && CL.RenamesLanded(Collected(v, t), end)
    && TU.OldEndsFirst(Collected(v, t), end) && CL.OldsDistinct(Collected(v, t))
  }

  /** Moreover, the recorded old paths are where the renamed files came from. */
  ghost predicate Revertible(v: Vault, t: Turn, end: Files) {
    && Kept(t.rows) && CL.RenamesLanded(Collected(v, t), end) && TU.OldEndsFirst(Collected(v, t), end)
    && CL.OldsAreOrigins(v.hash, Collected(v, t), OriginsIn(v, t))
  }

  /**
   The steps made from the report of a turn are possible exactly when it is acceptable, and lead back to its start
   exactly when it is revertible.
   */
  lemma ReportedTurnUndoneIff(v: Vault, t: Turn, end: Files)
    requires Reported(v, t, end)
    ensures RowBlockers(v, t.id, t.rows) == [] && Chained(View(v.hash, end), RowSteps(v, t.id, t.rows)) <==>
      Acceptable(v, t, end)
    ensures Undoes(v, t.id, t.rows, View(v.hash, end), View(v.hash, t.start)) <==> Revertible(v, t, end)
  {
    CL.RunFollowed(v.hash, CL.FRESH, map[], t.start, t.start, t.calls);
    TU.AcceptedIff(v, t.id, Collected(v, t), OriginsIn(v, t), t.rows, t.start, end);
    TU.UndoneIff(v, t.id, Collected(v, t), OriginsIn(v, t), t.rows, t.start, end);
  }

  function SetOf(t: Turn): ChangeSet {
    ChangeSet(t.id, true, t.rows)
  }

  /** The change sets of some turns, in their order: newest first. */
  function SetsOf(turns: seq<Turn>): seq<ChangeSet> {
    if turns == [] then [] else SetsOf(turns[..|turns| - 1]) + [SetOf(turns[|turns| - 1])]
  }

  /** The workspace from before all of these turns, which lead to `files`. */
  function Back(files: Files, turns: seq<Turn>): Files {
    if turns == [] then files else turns[|turns| - 1].start
  }

  /** `turns`, newest first, lead from the oldest start to `files`. */
  ghost predicate ReportedRun(v: Vault, turns: seq<Turn>, files: Files)
    decreases |turns|
  {
    turns == [] ||
    var newer, oldest := turns[..|turns| - 1], turns[|turns| - 1];
    ReportedRun(v, newer, files) && Reported(v, oldest, Back(files, newer))
  }

  ghost predicate AllRevertible(v: Vault, turns: seq<Turn>, files: Files)
    decreases |turns|
  {
    turns == [] ||
    var newer, oldest := turns[..|turns| - 1], turns[|turns| - 1];
    AllRevertible(v, newer, files) && Revertible(v, oldest, Back(files, newer))
  }

  lemma PlanOfTurns(v: Vault, newer: seq<ChangeSet>, t: Turn)
    ensures PlanSteps(v, newer + [SetOf(t)]) == PlanSteps(v, newer) + RowSteps(v, t.id, t.rows)
    ensures ChangeBlockers(v, newer + [SetOf(t)]) == ChangeBlockers(v, newer) + RowBlockers(v, t.id, t.rows)
  {
    assert (newer + [SetOf(t)])[..|newer|] == newer;
  }

  /** The plan made from these turns meets no blocker, completes, and brings back the workspace from before them. */
  ghost predicate Restores(v: Vault, files: Files, turns: seq<Turn>, env: Environment) {
    var steps := PlanSteps(v, SetsOf(turns));
    var run := ApplyUnder(v, files, steps, env, 0);
    && ChangeBlockers(v, SetsOf(turns)) == [] && StepBlockers(v, files, steps) == []
    && run.error.None? && View(v.hash, run.files) == View(v.hash, Back(files, turns))
  }

  /** Going back to before any of these turns works. */
  ghost predicate RestoresEach(v: Vault, files: Files, turns: seq<Turn>, env: Environment)
    decreases |turns|
  {
    turns == [] || (RestoresEach(v, files, turns[..|turns| - 1], env) && Restores(v, files, turns, env))
  }

  lemma RestoresMeans(v: Vault, files: Files, turns: seq<Turn>, env: Environment)
    requires Quiet(env)
    ensures var steps := PlanSteps(v, SetsOf(turns));
      Restores(v, files, turns, env) <==>
        && ChangeBlockers(v, SetsOf(turns)) == [] && Chained(View(v.hash, files), steps)
        && Replay(View(v.hash, files), steps) == View(v.hash, Back(files, turns))
  {
    var steps := PlanSteps(v, SetsOf(turns));
    PlansAreSound(v, SetsOf(turns));
    RehearsalExact(v, files, steps);
    if Chained(View(v.hash, files), steps) { PlanLandsOnReplay(v, files, steps, env); }
  }

  /** Behind newer turns that are undone, an older one is undone exactly when it is revertible. */
  lemma OneMoreTurn(v: Vault, files: Files, turns: seq<Turn>, env: Environment)
    requires turns != [] && ReportedRun(v, turns, files) && Quiet(env) && Restores(v, files, turns[..|turns| - 1], env)
    ensures Restores(v, files, turns, env) <==> Revertible(v, turns[|turns| - 1], Back(files, turns[..|turns| - 1]))
  {
    var newer, t := turns[..|turns| - 1], turns[|turns| - 1];
    RestoresMeans(v, files, newer, env);
    RestoresMeans(v, files, turns, env);
    ReportedTurnUndoneIff(v, t, Back(files, newer));
    PlanOfTurns(v, SetsOf(newer), t);
    ChainedConcat(View(v.hash, files), PlanSteps(v, SetsOf(newer)), RowSteps(v, t.id, t.rows));
  }

  lemma NothingToRestore(v: Vault, files: Files, env: Environment)
    requires Quiet(env)
    ensures Restores(v, files, [], env)
  {
    RestoresMeans(v, files, [], env);
  }

  /**
   Going back to before any of the recorded turns works, without change blocker or conflict, if and only if every turn
   is revertible. In particular the workspace from before the oldest of them comes back, byte for byte when the hash has
   no collisions.
   */
  lemma {:induction false} RecordedTurnsUndo(v: Vault, files: Files, turns: seq<Turn>, env: Environment)
    requires ReportedRun(v, turns, files) && Quiet(env)
    ensures RestoresEach(v, files, turns, env) <==> AllRevertible(v, turns, files)
    ensures AllRevertible(v, turns, files) ==>
      && Restores(v, files, turns, env)
      && (CollisionFree(v.hash) ==>
          ApplyUnder(v, files, PlanSteps(v, SetsOf(turns)), env, 0).files == Back(files, turns))
    decreases |turns|
  {
    if turns == [] {
      NothingToRestore(v, files, env);
    } else {
      RecordedTurnsUndo(v, files, turns[..|turns| - 1], env);
      if AllRevertible(v, turns[..|turns| - 1], files) { OneMoreTurn(v, files, turns, env); }
    }
    if AllRevertible(v, turns, files) && CollisionFree(v.hash) {
      SameFiles(v.hash, ApplyUnder(v, files, PlanSteps(v, SetsOf(turns)), env, 0).files, Back(files, turns));
    }
  }

  lemma PlanOfOne(v: Vault, t: Turn)
    ensures PlanSteps(v, SetsOf([t])) == RowSteps(v, t.id, t.rows)
    ensures ChangeBlockers(v, SetsOf([t])) == RowBlockers(v, t.id, t.rows)
  {
    assert [t][..0] == [];
    assert SetsOf([t]) == SetsOf([]) + [SetOf(t)];
    PlanOfTurns(v, [], t);
    assert PlanSteps(v, []) + RowSteps(v, t.id, t.rows) == RowSteps(v, t.id, t.rows);
    assert ChangeBlockers(v, []) + RowBlockers(v, t.id, t.rows) == RowBlockers(v, t.id, t.rows);
  }

  /**
   A single turn whose steps are possible, but whose renames are not recorded from their origins, is restored
   wrongly.
   */
  lemma AcceptedButWrong(v: Vault, files: Files, t: Turn, env: Environment)
    requires Reported(v, t, files) && Quiet(env) && Acceptable(v, t, files) && !Revertible(v, t, files)
    ensures var steps := PlanSteps(v, SetsOf([t]));
      var run := ApplyUnder(v, files, steps, env, 0);
      && ChangeBlockers(v, SetsOf([t])) == [] && StepBlockers(v, files, steps) == []
      && run.error.None?
      && View(v.hash, run.files) == Replay(View(v.hash, files), RowSteps(v, t.id, t.rows)) != View(v.hash, t.start)
  {
    PlanOfOne(v, t);
    ReportedTurnUndoneIff(v, t, files);
    var steps := RowSteps(v, t.id, t.rows);
    PlansAreSound(v, SetsOf([t]));
    RehearsalExact(v, files, steps);
    PlanLandsOnReplay(v, files, steps, env);
  }
}
