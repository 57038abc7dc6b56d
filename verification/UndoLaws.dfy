/** The undo theorem, crash recovery, preflight soundness and the no-lost-edit guarantee. */
module UndoLaws {
  import opened Results
  import opened Artifacts
  import opened Changes
  import opened Paths
  import opened Checkpoint
  import opened CheckpointLaws

  lemma SameLooks(a: map<Path, Digest>, b: map<Path, Digest>)
    requires forall p :: Look(a, p) == Look(b, p)
    ensures a == b
  {
    forall p ensures p in a <==> p in b { assert Look(a, p) == Look(b, p); }
    forall p | p in a ensures a[p] == b[p] { assert Look(a, p) == Look(b, p); }
  }

  /** Without hash collisions, equal digests everywhere means equal workspaces. */
  lemma SameFiles(hash: Bytes -> Digest, a: Files, b: Files)
    requires CollisionFree(hash) && View(hash, a) == View(hash, b)
    ensures a == b
  {
    assert a.Keys == View(hash, a).Keys == b.Keys;
    forall p | p in a ensures a[p] == b[p] {
      assert View(hash, a)[p] == hash(a[p]) && View(hash, b)[p] == hash(b[p]);
    }
  }

  // ---------------------------------------------------------------- one turn backwards

  predicate NamedIn(rows: seq<Change>, p: Path) {
    exists i :: 0 <= i < |rows| && p in Names(rows[i])
  }

  lemma {:induction false} StepsAreSound(v: Vault, turnId: string, rows: seq<Change>)
    ensures SoundSteps(v, RowSteps(v, turnId, rows))
  {
    if rows != [] {
      StepsAreSound(v, turnId, rows[..|rows| - 1]);
    }
  }

  lemma {:induction false} PlansAreSound(v: Vault, sets: seq<ChangeSet>)
    ensures SoundSteps(v, PlanSteps(v, sets))
  {
    if sets != [] {
      PlansAreSound(v, sets[..|sets| - 1]);
      StepsAreSound(v, sets[|sets| - 1].turnId, sets[|sets| - 1].files);
    }
  }

  /** One faithful row, played on a view that still shows `after` on its paths, shows `before` on them. */
  lemma RowUndo(v: Vault, turnId: string, c: Change, before: map<Path, Digest>, after: map<Path, Digest>,
                view: map<Path, Digest>)
    requires Faithful(v, c, before, after)
    requires forall p :: p in Names(c) ==> Look(view, p) == Look(after, p)
    ensures var made := StepsForChange(v, turnId, c);
      && made.Ok?
      && Chained(view, made.value)
      && forall p :: Look(Replay(view, made.value), p) == if p in Names(c) then Look(before, p) else Look(view, p)
  {
    var steps := StepsForChange(v, turnId, c).value;
    if c.kind.Renamed? {
      var s0, s1 := steps[0], steps[1];
      var mid := Set(view, s0.path, Sig(s0.target));
      assert steps[1..] == [s1] && [s1][1..] == [];
      assert Replay(mid, [s1]) == Set(mid, s1.path, Sig(s1.target));
    } else {
      assert steps[1..] == [];
    }
  }

  lemma NamedInSnoc(rows: seq<Change>, p: Path)
    requires rows != []
    ensures NamedIn(rows, p) <==> NamedIn(rows[..|rows| - 1], p) || p in Names(rows[|rows| - 1])
  {
    var n := |rows| - 1;
    if NamedIn(rows[..n], p) {
      var i :| 0 <= i < n && p in Names(rows[..n][i]);
      assert p in Names(rows[i]);
    }
    if i :| 0 <= i < |rows| && p in Names(rows[i]) {
      if i < n { assert p in Names(rows[..n][i]); }
    }
  }

  ghost predicate NamedOnce(rows: seq<Change>) {
    forall i, j :: 0 <= i < j < |rows| ==> Names(rows[i]) !! Names(rows[j])
  }

  lemma NamedOnceSnoc(rows: seq<Change>, p: Path)
    requires rows != [] && NamedOnce(rows) && p in Names(rows[|rows| - 1])
    ensures !NamedIn(rows[..|rows| - 1], p)
  {
    assert forall i :: 0 <= i < |rows| - 1 ==>
        rows[..|rows| - 1][i] == rows[i] && Names(rows[i]) !! Names(rows[|rows| - 1]);
  }

  /** Rows played so far show `before` on the paths they name and `after` elsewhere. */
  ghost predicate UndoneSoFar(rows: seq<Change>, before: map<Path, Digest>, after: map<Path, Digest>,
                              view: map<Path, Digest>) {
    forall p :: Look(view, p) == if NamedIn(rows, p) then Look(before, p) else Look(after, p)
  }

  lemma {:induction false} RowsUndo(v: Vault, turnId: string, rows: seq<Change>, before: map<Path, Digest>,
                                    after: map<Path, Digest>)
    requires (forall i :: 0 <= i < |rows| ==> Faithful(v, rows[i], before, after)) && NamedOnce(rows)
    ensures RowBlockers(v, turnId, rows) == []
    ensures Chained(after, RowSteps(v, turnId, rows))
    ensures UndoneSoFar(rows, before, after, Replay(after, RowSteps(v, turnId, rows)))
    decreases |rows|
  {
    if rows != [] {
      var n := |rows| - 1;
      var earlier, c := rows[..n], rows[n];
      RowsUndo(v, turnId, earlier, before, after);
      var done := RowSteps(v, turnId, earlier);
      var view := Replay(after, done);
      forall p | p in Names(c) ensures Look(view, p) == Look(after, p) {
        NamedOnceSnoc(rows, p);
      }
      RowUndo(v, turnId, c, before, after, view);
      var steps := StepsForChange(v, turnId, c).value;
      ChainedConcat(after, done, steps);
      forall p ensures Look(Replay(view, steps), p) == if NamedIn(rows, p) then Look(before, p) else Look(after, p) {
        NamedInSnoc(rows, p);
      }
    }
  }

  // ---------------------------------------------------------------- many turns backwards

  /** Played on `after`, the steps of the rows are all possible and lead to `before`. */
  ghost predicate Undoes(v: Vault, turnId: string, rows: seq<Change>, after: map<Path, Digest>,
                         before: map<Path, Digest>) {
    && RowBlockers(v, turnId, rows) == []
    && Chained(after, RowSteps(v, turnId, rows))
    && Replay(after, RowSteps(v, turnId, rows)) == before
  }

  /** A truthful record of a turn undoes it. */
  lemma DescribedIsUndone(v: Vault, turnId: string, rows: seq<Change>, before: map<Path, Digest>,
                          after: map<Path, Digest>)
    requires Describes(v, rows, before, after)
    ensures Undoes(v, turnId, rows, after, before)
  {
    RowsUndo(v, turnId, rows, before, after);
    var out := Replay(after, RowSteps(v, turnId, rows));
    forall p ensures Look(out, p) == Look(before, p) {
      assert NamedIn(rows, p) <==> Look(before, p) != Look(after, p);
    }
    SameLooks(out, before);
  }

  /** `worlds[0]` is the workspace now, `worlds[i + 1]` the one to which `sets[i]` leads back. */
  ghost predicate Undoable(v: Vault, sets: seq<ChangeSet>, worlds: seq<map<Path, Digest>>) {
    && |worlds| == |sets| + 1
    && forall i :: 0 <= i < |sets| ==>
         sets[i].complete && Undoes(v, sets[i].turnId, sets[i].files, worlds[i], worlds[i + 1])
  }

  lemma UndoablePrefix(v: Vault, sets: seq<ChangeSet>, worlds: seq<map<Path, Digest>>)
    requires Undoable(v, sets, worlds) && sets != []
    ensures var n := |sets| - 1;
      && Undoable(v, sets[..n], worlds[..n + 1])
      && sets[n].complete && Undoes(v, sets[n].turnId, sets[n].files, worlds[n], worlds[n + 1])
  {}

  lemma {:induction false} UndoableChains(v: Vault, sets: seq<ChangeSet>, worlds: seq<map<Path, Digest>>)
    requires Undoable(v, sets, worlds)
    ensures ChangeBlockers(v, sets) == []
    ensures Chained(worlds[0], PlanSteps(v, sets))
    ensures Replay(worlds[0], PlanSteps(v, sets)) == worlds[|sets|]
  {
    if sets != [] {
      var n := |sets| - 1;
      var cs := sets[n];
      UndoablePrefix(v, sets, worlds);
      UndoableChains(v, sets[..n], worlds[..n + 1]);
      ChainedConcat(worlds[0], PlanSteps(v, sets[..n]), RowSteps(v, cs.turnId, cs.files));
    }
  }

  /** The plan made from undoable turns meets no conflict and leads back to the oldest workspace. */
  lemma UndoableRestores(v: Vault, files: Files, sets: seq<ChangeSet>, worlds: seq<map<Path, Digest>>, env: Environment)
    requires Undoable(v, sets, worlds) && worlds[0] == View(v.hash, files) && Quiet(env)
    ensures ChangeBlockers(v, sets) == [] && StepBlockers(v, files, PlanSteps(v, sets)) == []
    ensures var run := ApplyUnder(v, files, PlanSteps(v, sets), env, 0);
      run.error.None? && View(v.hash, run.files) == worlds[|sets|]
  {
    var steps := PlanSteps(v, sets);
    UndoableChains(v, sets, worlds);
    PlansAreSound(v, sets);
    RehearsalExact(v, files, steps);
    PlanLandsOnReplay(v, files, steps, env);
  }

  /** `worlds[0]` is the workspace now, `worlds[i + 1]` the one before the turn recorded by `sets[i]`. */
  ghost predicate Timeline(v: Vault, sets: seq<ChangeSet>, worlds: seq<map<Path, Digest>>) {
    && |worlds| == |sets| + 1
    && forall i :: 0 <= i < |sets| ==> sets[i].complete && Describes(v, sets[i].files, worlds[i + 1], worlds[i])
  }

  lemma TimelineUndo(v: Vault, sets: seq<ChangeSet>, worlds: seq<map<Path, Digest>>)
    requires Timeline(v, sets, worlds)
    ensures Undoable(v, sets, worlds) && ChangeBlockers(v, sets) == []
    ensures Chained(worlds[0], PlanSteps(v, sets))
    ensures Replay(worlds[0], PlanSteps(v, sets)) == worlds[|sets|]
  {
    forall i | 0 <= i < |sets|
      ensures sets[i].complete && Undoes(v, sets[i].turnId, sets[i].files, worlds[i], worlds[i + 1]) {
      DescribedIsUndone(v, sets[i].turnId, sets[i].files, worlds[i + 1], worlds[i]);
    }
    UndoableChains(v, sets, worlds);
  }

  /**
   Undo. From truthful, complete records of consecutive turns, newest first, the plan has no file
   conflict, and applying it brings every path back to its state before the oldest of those turns.
   */
  lemma UndoTheorem(v: Vault, files: Files, sets: seq<ChangeSet>, worlds: seq<map<Path, Digest>>, env: Environment)
    requires Timeline(v, sets, worlds) && worlds[0] == View(v.hash, files) && Quiet(env)
    ensures ChangeBlockers(v, sets) == [] && StepBlockers(v, files, PlanSteps(v, sets)) == []
    ensures var run := ApplyUnder(v, files, PlanSteps(v, sets), env, 0);
      run.error.None? && View(v.hash, run.files) == worlds[|sets|]
    ensures forall past: Files :: CollisionFree(v.hash) && View(v.hash, past) == worlds[|sets|] ==>
      ApplyUnder(v, files, PlanSteps(v, sets), env, 0).files == past
  {
    TimelineUndo(v, sets, worlds);
    UndoableRestores(v, files, sets, worlds, env);
    var run := ApplyUnder(v, files, PlanSteps(v, sets), env, 0);
    forall past: Files | CollisionFree(v.hash) && View(v.hash, past) == worlds[|sets|] ensures run.files == past {
      SameFiles(v.hash, run.files, past);
    }
  }

  // ---------------------------------------------------------------- preflight

  /** The rehearsal reports no conflict exactly when the steps chain up from the present workspace. */
  lemma {:induction false} RehearsalExact(v: Vault, files: Files, steps: seq<Step>)
    requires SoundSteps(v, steps)
    ensures StepBlockers(v, files, steps) == [] <==> Chained(View(v.hash, files), steps)
    ensures StepBlockers(v, files, steps) == [] ==> forall p ::
      Sig(Current(v, files, Rehearsed(v, files, steps), p)) == Look(Replay(View(v.hash, files), steps), p)
      && (p in Rehearsed(v, files, steps) ==> Sound(v, Rehearsed(v, files, steps)[p]))
  {
    if steps != [] {
      var n := |steps| - 1;
      var s := steps[n];
      RehearsalExact(v, files, steps[..n]);
      ChainedSnoc(View(v.hash, files), steps);
      assert s in steps;
    }
  }

  /** Applied to the workspace it was made for, a chained plan completes and lands on its replay. */
  lemma PlanLandsOnReplay(v: Vault, files: Files, steps: seq<Step>, env: Environment)
    requires Quiet(env) && SoundSteps(v, steps) && Chained(View(v.hash, files), steps)
    ensures var run := ApplyUnder(v, files, steps, env, 0);
      run.error.None? && View(v.hash, run.files) == Replay(View(v.hash, files), steps)
  {
    var view := View(v.hash, files);
    forall p | FirstOn(steps, p).Some? ensures Fits(Look(view, p), FirstOn(steps, p).value) {
      FirstOriginalIsStart(view, steps, p);
    }
    ApplyExact(v, files, steps, env, 0, view);
    var out := View(v.hash, ApplyUnder(v, files, steps, env, 0).files);
    forall p ensures Look(out, p) == Look(Replay(view, steps), p) {
      EndsExist(steps, p);
      if LastOn(steps, p).None? { ReplayElsewhere(view, steps, p); }
    }
    SameLooks(out, Replay(view, steps));
  }

  // ---------------------------------------------------------------- crashes

  /** The workspace a crash leaves behind after `k` atomic steps of a run that met no conflict. */
  function CrashedAt(v: Vault, files: Files, steps: seq<Step>, env: Environment, k: nat): Files
    requires k <= |steps|
  {
    ApplyUnder(v, files, steps[..k], env, 0).files
  }

  lemma CrashView(v: Vault, files: Files, steps: seq<Step>, env: Environment, k: nat)
    requires Quiet(env) && SoundSteps(v, steps) && Chained(View(v.hash, files), steps) && k <= |steps|
    ensures View(v.hash, CrashedAt(v, files, steps, env, k)) == Replay(View(v.hash, files), steps[..k])
    ensures Chained(View(v.hash, files), steps[..k])
    ensures Chained(Replay(View(v.hash, files), steps[..k]), steps[k..])
    ensures Replay(Replay(View(v.hash, files), steps[..k]), steps[k..]) == Replay(View(v.hash, files), steps)
  {
    assert steps == steps[..k] + steps[k..];
    ChainedConcat(View(v.hash, files), steps[..k], steps[k..]);
    PlanLandsOnReplay(v, files, steps[..k], env);
  }

  lemma {:induction false} DistinctFirstIsLast(steps: seq<Step>, p: Path)
    requires DistinctPaths(steps)
    ensures FirstOn(steps, p) == LastOn(steps, p)
    decreases |steps|
  {
    if steps != [] {
      var s, rest := steps[0], steps[1..];
      DistinctFirstIsLast(rest, p);
      LastOne(s, p);
      LastConcat([s], rest, p);
      EndsExist(rest, p);
      assert [s] + rest == steps;
    }
  }

  /**
   Crash-safe rollback. After any number of atomic steps, if no path has two steps still to come,
   rolling the whole plan back meets no conflict and restores the workspace from before the operation.
   */
  lemma CrashSafeRollback(v: Vault, files: Files, steps: seq<Step>, k: nat, env: Environment)
    requires Quiet(env) && SoundSteps(v, steps) && Chained(View(v.hash, files), steps)
    requires k <= |steps| && DistinctPaths(steps[k..])
    ensures var run := RollbackUnder(v, CrashedAt(v, files, steps, env, k), steps, env, 0);
      && run.error.None? && View(v.hash, run.files) == View(v.hash, files)
      && (CollisionFree(v.hash) ==> run.files == files)
  {
    var start, crashed := View(v.hash, files), CrashedAt(v, files, steps, env, k);
    CrashView(v, files, steps, env, k);
    var now, done, rest := View(v.hash, crashed), steps[..k], steps[k..];
    assert steps == done + rest;
    forall p ensures LastOn(steps, p).Some? ==> Fits(Look(now, p), LastOn(steps, p).value) {
      LastConcat(done, rest, p);
      DistinctFirstIsLast(rest, p);
      if LastOn(rest, p).Some? {
        FirstOriginalIsStart(now, rest, p);
      } else if LastOn(done, p).Some? {
        ReplayIsLastTarget(start, done, p);
      }
    }
    RollbackExact(v, crashed, steps, env, 0, start);
    var run := RollbackUnder(v, crashed, steps, env, 0);
    forall p ensures Look(View(v.hash, run.files), p) == Look(start, p) {
      LastConcat(done, rest, p);
      EndsExist(done, p);
      if LastOn(steps, p).None? { ReplayElsewhere(start, done, p); }
    }
    SameLooks(View(v.hash, run.files), start);
    if CollisionFree(v.hash) { SameFiles(v.hash, run.files, files); }
  }

  /** The workspace that a crash leaves behind after the last `j` steps of a plan were rolled back. */
  function HalfBack(v: Vault, files: Files, steps: seq<Step>, env: Environment, j: nat): Files
    requires j <= |steps|
  {
    RollbackUnder(v, files, steps[|steps| - j..], env, 0).files
  }

  /** What a path held before these steps is an end of the last one on it, so going back once more finds its way. */
  ghost predicate ReturnsToAnEnd(steps: seq<Step>) {
    forall p :: FirstOn(steps, p).Some? && LastOn(steps, p).Some? ==>
        Fits(Sig(FirstOn(steps, p).value.original), LastOn(steps, p).value)
  }

  lemma DistinctReturns(steps: seq<Step>)
    requires DistinctPaths(steps)
    ensures ReturnsToAnEnd(steps)
  {
    forall p ensures FirstOn(steps, p) == LastOn(steps, p) { DistinctFirstIsLast(steps, p); }
  }

  /** A crash after `k` steps leaves a workspace that the whole plan can be rolled back from. */
  lemma CrashIsRecoverable(v: Vault, files: Files, steps: seq<Step>, k: nat, env: Environment)
    requires Quiet(env) && SoundSteps(v, steps) && Chained(View(v.hash, files), steps)
    requires k <= |steps| && DistinctPaths(steps[k..])
    ensures var now := View(v.hash, CrashedAt(v, files, steps, env, k));
      && Recoverable(now, steps)
      && forall p :: LastOn(steps, p).None? ==> Look(now, p) == Look(View(v.hash, files), p)
  {
    var start, crashed := View(v.hash, files), CrashedAt(v, files, steps, env, k);
    CrashSafeRollback(v, files, steps, k, env);
    RollbackExact(v, crashed, steps, env, 0, start);
    CrashView(v, files, steps, env, k);
    assert steps == steps[..k] + steps[k..];
    forall p | LastOn(steps, p).None? ensures Look(View(v.hash, crashed), p) == Look(start, p) {
      LastConcat(steps[..k], steps[k..], p);
      EndsExist(steps[..k], p);
      ReplayElsewhere(start, steps[..k], p);
    }
  }

  /** What the first, interrupted rollback leaves on each path. */
  lemma HalfBackView(v: Vault, files: Files, steps: seq<Step>, j: nat, start: map<Path, Digest>, env: Environment)
    requires Quiet(env) && SoundSteps(v, steps) && Chained(start, steps) && j <= |steps|
    requires Recoverable(View(v.hash, files), steps)
    ensures var tail := steps[|steps| - j..];
      var half := View(v.hash, HalfBack(v, files, steps, env, j));
      forall p :: Look(half, p) == if FirstOn(tail, p).Some? then Sig(FirstOn(tail, p).value.original)
          else Look(View(v.hash, files), p)
  {
    var n := |steps| - j;
    var done, tail := steps[..n], steps[n..];
    assert steps == done + tail;
    ChainedConcat(start, done, tail);
    forall p | LastOn(tail, p).Some? ensures Fits(Look(View(v.hash, files), p), LastOn(tail, p).value) {
      LastConcat(done, tail, p);
    }
    RollbackExact(v, files, tail, env, 0, Replay(start, done));
    forall p
      ensures Look(View(v.hash, HalfBack(v, files, steps, env, j)), p) ==
        if FirstOn(tail, p).Some? then Sig(FirstOn(tail, p).value.original) else Look(View(v.hash, files), p)
    {
      EndsExist(tail, p);
      if FirstOn(tail, p).Some? { FirstOriginalIsStart(Replay(start, done), tail, p); }
    }
  }

  /**
   Rolling back again. After a crash of the rollback as well, `j` steps from the end, starting it anew succeeds if and
   only if what each of these steps' paths held before them is an end of its last step; it then restores the workspace
   from before the operation.
   */
  lemma RollbackAgainIff(v: Vault, files: Files, steps: seq<Step>, k: nat, j: nat, env: Environment)
    requires Quiet(env) && SoundSteps(v, steps) && Chained(View(v.hash, files), steps)
    requires k <= |steps| && DistinctPaths(steps[k..]) && j <= |steps|
    ensures var half := HalfBack(v, CrashedAt(v, files, steps, env, k), steps, env, j);
      var again := RollbackUnder(v, half, steps, env, 0);
      && (again.error.None? <==> ReturnsToAnEnd(steps[|steps| - j..]))
      && (again.error.None? ==> View(v.hash, again.files) == View(v.hash, files))
  {
    var start, crashed := View(v.hash, files), CrashedAt(v, files, steps, env, k);
    var n := |steps| - j;
    var done, tail, half := steps[..n], steps[n..], HalfBack(v, crashed, steps, env, j);
    assert steps == done + tail;
    CrashIsRecoverable(v, files, steps, k, env);
    HalfBackView(v, crashed, steps, j, start, env);
    RollbackExact(v, half, steps, env, 0, start);
    forall p ensures LastOn(steps, p) == if LastOn(tail, p).Some? then LastOn(tail, p) else LastOn(done, p) {
      LastConcat(done, tail, p);
    }
    forall p ensures FirstOn(tail, p).Some? <==> LastOn(tail, p).Some? { EndsExist(tail, p); }
    var again := RollbackUnder(v, half, steps, env, 0);
    if again.error.None? {
      forall p ensures Look(View(v.hash, again.files), p) == Look(start, p) {}
      SameLooks(View(v.hash, again.files), start);
    }
  }

  /** In particular, when no path has two steps, a rollback may be interrupted and started anew at any point. */
  lemma CrashSafeRollbackAgain(v: Vault, files: Files, steps: seq<Step>, k: nat, j: nat, env: Environment)
    requires Quiet(env) && SoundSteps(v, steps) && Chained(View(v.hash, files), steps)
    requires k <= |steps| && j <= |steps| && DistinctPaths(steps)
    ensures var half := HalfBack(v, CrashedAt(v, files, steps, env, k), steps, env, j);
      var again := RollbackUnder(v, half, steps, env, 0);
      && again.error.None? && View(v.hash, again.files) == View(v.hash, files)
      && (CollisionFree(v.hash) ==> again.files == files)
  {
    DistinctReturns(steps[|steps| - j..]);
    RollbackAgainIff(v, files, steps, k, j, env);
    if CollisionFree(v.hash) {
      var half := HalfBack(v, CrashedAt(v, files, steps, env, k), steps, env, j);
      SameFiles(v.hash, RollbackUnder(v, half, steps, env, 0).files, files);
    }
  }

  /**
   Crash-safe continuation. If no path has had two steps already, running the whole plan again
   completes it as if it had never been interrupted.
   */
  lemma CrashSafeResume(v: Vault, files: Files, steps: seq<Step>, k: nat, env: Environment)
    requires Quiet(env) && SoundSteps(v, steps) && Chained(View(v.hash, files), steps)
    requires k <= |steps| && DistinctPaths(steps[..k])
    ensures var run := ApplyUnder(v, CrashedAt(v, files, steps, env, k), steps, env, 0);
      run.error.None? && View(v.hash, run.files) == View(v.hash, ApplyUnder(v, files, steps, env, 0).files)
  {
    var start, crashed := View(v.hash, files), CrashedAt(v, files, steps, env, k);
    CrashView(v, files, steps, env, k);
    var now, done, rest := View(v.hash, crashed), steps[..k], steps[k..];
    assert steps == done + rest;
    forall p ensures FirstOn(steps, p).Some? ==> Fits(Look(now, p), FirstOn(steps, p).value) {
      FirstConcat(done, rest, p);
      DistinctFirstIsLast(done, p);
      if FirstOn(done, p).Some? {
        ReplayIsLastTarget(start, done, p);
      } else if FirstOn(rest, p).Some? {
        FirstOriginalIsStart(now, rest, p);
      }
    }
    ApplyExact(v, crashed, steps, env, 0, start);
    PlanLandsOnReplay(v, files, steps, env);
    var out := View(v.hash, ApplyUnder(v, crashed, steps, env, 0).files);
    forall p ensures Look(out, p) == Look(Replay(start, steps), p) {
      EndsExist(steps, p);
      FirstConcat(done, rest, p);
      if LastOn(steps, p).None? {
        ReplayElsewhere(start, done, p);
        ReplayElsewhere(start, steps, p);
      }
    }
    SameLooks(out, Replay(start, steps));
  }

  /**
   The side condition of the rollback is needed: a plan that takes one path through three
   different states and was stopped before its first step cannot be rolled back.
   */
  lemma RollbackConflictExample(v: Vault, p: Path, a: Bytes, b: Bytes, c: Bytes, env: Environment)
    requires Quiet(env) && v.hash(a) != v.hash(b) && v.hash(a) != v.hash(c) && v.hash(b) != v.hash(c)
    ensures var st := (d: Bytes) => FileState(true, Some(v.hash(d)), Some(v.hash(d)));
      var steps := [Step("t2", p, st(a), st(b)), Step("t1", p, st(b), st(c))];
      var files := map[p := a];
      && Chained(View(v.hash, files), steps)
      && RollbackUnder(v, CrashedAt(v, files, steps, env, 0), steps, env, 0).error ==
           Some(CheckpointError(RecoveryConflict, Some(p)))
  {
    var st := (d: Bytes) => FileState(true, Some(v.hash(d)), Some(v.hash(d)));
    var steps := [Step("t2", p, st(a), st(b)), Step("t1", p, st(b), st(c))];
    assert steps[1..] == [steps[1]] && steps[1..][1..] == [];
    var files := map[p := a];
    assert CrashedAt(v, files, steps, env, 0) == files;
    assert env(0, files) == files;
  }

  /** Taken back once, such a plan cannot be taken back a second time. */
  lemma RollbackTwiceExample(v: Vault, p: Path, a: Bytes, b: Bytes, c: Bytes, env: Environment)
    requires Quiet(env) && v.hash(a) != v.hash(b) && v.hash(a) != v.hash(c) && v.hash(b) != v.hash(c)
    requires Readable(v, v.hash(a)) && Readable(v, v.hash(b)) && Readable(v, v.hash(c))
    ensures var st := (d: Bytes) => FileState(true, Some(v.hash(d)), Some(v.hash(d)));
      var steps := [Step("t2", p, st(a), st(b)), Step("t1", p, st(b), st(c))];
      var done := CrashedAt(v, map[p := a], steps, env, 2);
      && RollbackUnder(v, done, steps, env, 0).error.None?
      && RollbackUnder(v, RollbackUnder(v, done, steps, env, 0).files, steps, env, 0).error.Some?
  {
    var st := (d: Bytes) => FileState(true, Some(v.hash(d)), Some(v.hash(d)));
    var s0, s1 := Step("t2", p, st(a), st(b)), Step("t1", p, st(b), st(c));
    var steps, files := [s0, s1], map[p := a];
    assert steps[1..] == [s1] && [s1][1..] == [] && steps[2..] == [] && steps[0..] == steps;
    assert FirstOn(steps, p) == Some(s0) && LastOn(steps, p) == Some(s1);
    CrashSafeRollback(v, files, steps, 2, env);
    RollbackAgainIff(v, files, steps, 2, 2, env);
  }

  // ---------------------------------------------------------------- what the user is told

  /** What really happens to a file that goes from one state to another. */
  function ActionOf(before: Option<Digest>, after: Option<Digest>): Action {
    if before == after then Keep
    else if before.None? then Create
    else if after.None? then Delete
    else Modify
  }

  /** The action counted for a path is what the whole plan really does to it. */
  lemma PlannedActionsAreReal(v: Vault, steps: seq<Step>, start: map<Path, Digest>, p: Path)
    requires SoundSteps(v, steps) && Chained(start, steps)
    ensures PlannedAction(steps, p) == ActionOf(Look(start, p), Look(Replay(start, steps), p))
  {
    EndsExist(steps, p);
    if LastOn(steps, p).Some? {
      FirstOriginalIsStart(start, steps, p);
      ReplayIsLastTarget(start, steps, p);
    } else {
      ReplayElsewhere(start, steps, p);
    }
  }

  /**
   Preflight. A plan without blockers, applied to the unchanged workspace, completes, is accepted by
   the final check, and the summary shown beforehand counts exactly the files created, modified and deleted.
   */
  lemma PreflightTheorem(v: Vault, files: Files, sets: seq<ChangeSet>, env: Environment)
    requires Quiet(env) && StepBlockers(v, files, PlanSteps(v, sets)) == []
    ensures var steps := PlanSteps(v, sets);
      var run := ApplyUnder(v, files, steps, env, 0);
      var before, after := View(v.hash, files), View(v.hash, run.files);
      && run.error.None?
      && AllAtTarget(v, run.files, steps)
      && (forall p {:trigger Look(after, p)} :: p !in PathsOf(steps) ==> Look(after, p) == Look(before, p))
      && OfKind(steps, Create) == (set p | p in after && p !in before)
      && OfKind(steps, Delete) == (set p | p in before && p !in after)
      && OfKind(steps, Modify) == (set p | p in before && p in after && before[p] != after[p])
  {
    var steps := PlanSteps(v, sets);
    PlansAreSound(v, sets);
    RehearsalExact(v, files, steps);
    PlanLandsOnReplay(v, files, steps, env);
    var run := ApplyUnder(v, files, steps, env, 0);
    var before, after := View(v.hash, files), View(v.hash, run.files);
    forall p | LastOn(steps, p).Some? ensures StatesEqual(Inspect(v, run.files, p), LastOn(steps, p).value.target) {
      EndsExist(steps, p);
      ReplayIsLastTarget(before, steps, p);
      InspectMeans(v, run.files, p, LastOn(steps, p).value.target);
    }
    forall p
      ensures p in OfKind(steps, Create) <==> p in after && p !in before
      ensures p in OfKind(steps, Delete) <==> p in before && p !in after
      ensures p in OfKind(steps, Modify) <==> p in before && p in after && before[p] != after[p]
      ensures p !in PathsOf(steps) ==> Look(after, p) == Look(before, p)
    {
      EndsExist(steps, p);
      PlannedActionsAreReal(v, steps, before, p);
      if p !in PathsOf(steps) { ReplayElsewhere(before, steps, p); }
    }
  }

  // ---------------------------------------------------------------- no lost edit

  /** One step of a run: what it found and what it left behind. */
  datatype Moment = Moment(step: Step, seen: Files, after: Files)

  // Both directions of a run at once: `forward` for an apply, backwards for a rollback.

  function NextStep(forward: bool, steps: seq<Step>): Step
    requires steps != []
  {
    if forward then steps[0] else steps[|steps| - 1]
  }

  function OtherSteps(forward: bool, steps: seq<Step>): seq<Step>
    requires steps != []
  {
    if forward then steps[1..] else steps[..|steps| - 1]
  }

  function StepRun(forward: bool, v: Vault, seen: Files, s: Step): Run {
    if forward then ApplyStep(v, seen, s) else RollbackStep(v, seen, s)
  }

  function RunUnder(forward: bool, v: Vault, files: Files, steps: seq<Step>, env: Environment, n: nat): Run {
    if forward then ApplyUnder(v, files, steps, env, n) else RollbackUnder(v, files, steps, env, n)
  }

  lemma RunUnfolds(forward: bool, v: Vault, files: Files, steps: seq<Step>, env: Environment, n: nat)
    ensures steps == [] ==> RunUnder(forward, v, files, steps, env, n) == Run(files, None)
    ensures steps != [] ==> var r := StepRun(forward, v, env(n, files), NextStep(forward, steps));
      RunUnder(forward, v, files, steps, env, n) ==
          if r.error.Some? then r else RunUnder(forward, v, r.files, OtherSteps(forward, steps), env, n + 1)
  {}

  /** Every step carried out by a run. */
  function Trace(forward: bool, v: Vault, files: Files, steps: seq<Step>, env: Environment, n: nat): seq<Moment>
    decreases |steps|
  {
    if steps == [] then []
    else
      var s, seen := NextStep(forward, steps), env(n, files);
      var r := StepRun(forward, v, seen, s);
      if r.error.Some? then [Moment(s, seen, r.files)]
      else [Moment(s, seen, r.files)] + Trace(forward, v, r.files, OtherSteps(forward, steps), env, n + 1)
  }

  /** The step left the workspace alone, or replaced exactly the recorded content on its own path. */
  ghost predicate LosesNothing(hash: Bytes -> Digest, forward: bool, m: Moment) {
    var expected := if forward then m.step.original else m.step.target;
    var wanted := if forward then m.step.target else m.step.original;
    m.after == m.seen ||
    (&& Look(View(hash, m.seen), m.step.path) == Sig(expected)
     && Look(View(hash, m.after), m.step.path) == Sig(wanted)
     && m.after - {m.step.path} == m.seen - {m.step.path})
  }

  /** The steps and the other processes are all that ever changes the workspace. */
  ghost predicate Unbroken(files: Files, trace: seq<Moment>, env: Environment, n: nat, final: Files)
    decreases |trace|
  {
    if trace == [] then final == files
    else trace[0].seen == env(n, files) && Unbroken(trace[0].after, trace[1..], env, n + 1, final)
  }

  /** A run that stopped did so in front of a file in neither recorded state, and left all as it was. */
  ghost predicate StoppedSafely(hash: Bytes -> Digest, forward: bool, trace: seq<Moment>, run: Run) {
    && run.error.Some? && trace != []
    && var m := trace[|trace| - 1];
    && m.after == m.seen == run.files && !Fits(Look(View(hash, m.seen), m.step.path), m.step)
    && run.error.value == CheckpointError(if forward then FileConflict else RecoveryConflict, Some(m.step.path))
  }

  /**
   No lost edit. Whatever other processes do between the steps, the workspace changes only through
   them or through a step that found exactly the recorded content; a run that stops, stops in front
   of a file that is in neither recorded state and leaves the workspace as it found it.
   */
  lemma {:induction false} NoLostEdit(forward: bool, v: Vault, files: Files, steps: seq<Step>, env: Environment, n: nat)
    requires SoundSteps(v, steps)
    ensures var run := RunUnder(forward, v, files, steps, env, n);
      var trace := Trace(forward, v, files, steps, env, n);
      && (forall m :: m in trace ==> LosesNothing(v.hash, forward, m))
      && Unbroken(files, trace, env, n, run.files)
      && (if run.error.None? then |trace| == |steps| else StoppedSafely(v.hash, forward, trace, run))
    decreases |steps|
  {
    RunUnfolds(forward, v, files, steps, env, n);
    if steps != [] {
      var s, rest, seen := NextStep(forward, steps), OtherSteps(forward, steps), env(n, files);
      OneStepLosesNothing(forward, v, seen, s);
      var r := StepRun(forward, v, seen, s);
      var trace := Trace(forward, v, files, steps, env, n);
      if r.error.None? {
        NoLostEdit(forward, v, r.files, rest, env, n + 1);
        var tail := Trace(forward, v, r.files, rest, env, n + 1);
        assert trace[1..] == tail;
      } else {
        assert trace == [Moment(s, seen, r.files)] && trace[1..] == [];
      }
    }
  }

  lemma OneStepLosesNothing(forward: bool, v: Vault, seen: Files, s: Step)
    requires Sound(v, s.original) && Sound(v, s.target)
    ensures var r := StepRun(forward, v, seen, s);
      && LosesNothing(v.hash, forward, Moment(s, seen, r.files))
      && (r.error.Some? ==> StoppedSafely(v.hash, forward, [Moment(s, seen, r.files)], r))
  {
    InspectMeans(v, seen, s.path, s.original);
    InspectMeans(v, seen, s.path, s.target);
    ApplyStepMeans(v, seen, s);
    RollbackStepMeans(v, seen, s);
  }
}
