/** Recorded turns that a restore takes back wrongly, or only by chance. */
module RecordedExamples {
  import opened Results
  import opened Artifacts
  import opened Changes
  import opened Collector
  import opened Checkpoint
  import opened CheckpointLaws
  import opened CollectorLaws
  import opened Paths
  import opened RecordedTurns
  import opened TurnCollector
  import opened TurnUndo

  lemma OneRowReports(v: Vault, files: map<Path, Entry>, p: Path, row: Change)
    requires files.Keys == {p} && RowOf(v, p, files[p], row)
    ensures Reports(v, files, [row])
  {
    assert [row][0].path == Some(p);
  }

  /** A report that names an old path which did not exist at the start of the turn is wrong. */
  lemma GhostIsWrong(v: Vault, t: Turn, end: Files, n: Path, o: Path)
    requires HonestRun(t.start, t.calls) && Play(v.hash, FRESH, t.start, t.calls).0.complete
    requires Play(v.hash, FRESH, t.start, t.calls).1 == end
    requires n in Collected(v, t) && Collected(v, t)[n].oldPath == Some(o) && o !in t.start
    ensures !Revertible(v, t, end)
  {
    RunFollowed(v.hash, FRESH, map[], t.start, t.start, t.calls);
    GhostOrigin(v.hash, Collected(v, t), OriginsIn(v, t), n, o, t.start, end);
  }

  /** The row of a file of this content that is said to have been renamed from `o` to `n`. */
  function RenameRow(v: Vault, o: Path, n: Path, data: Bytes): Change {
    var d := Some(v.hash(data));
    Change(Renamed, Some(n), Some(o), d, d, d, d)
  }

  /** A rename that is possible is taken back. */
  lemma RenameRowBack(v: Vault, turnId: string, o: Path, n: Path, data: Bytes, view: map<Path, Digest>)
    requires o != n && Readable(v, v.hash(data)) && Look(view, n) == Some(v.hash(data)) && o !in view
    ensures var row := RenameRow(v, o, n, data);
      && RowBlockers(v, turnId, [row]) == [] && Chained(view, RowSteps(v, turnId, [row]))
      && Replay(view, RowSteps(v, turnId, [row])) == (view - {n})[o := v.hash(data)]
  {
    var d := Some(v.hash(data));
    var row := RenameRow(v, o, n, data);
    var s0, s1 := Step(turnId, n, FileState(true, d, d), ABSENT), Step(turnId, o, ABSENT, FileState(true, d, d));
    assert [row][..0] == [] && StepsForChange(v, turnId, row) == Ok([s0, s1]);
    assert RowSteps(v, turnId, [row]) == RowSteps(v, turnId, []) + [s0, s1] == [s0, s1];
    assert [s0, s1][1..] == [s1] && [s1][1..] == [];
    var mid := Set(view, n, None);
    assert Replay(mid, [s1]) == Set(mid, o, d);
  }

  /** A file that its turn renamed from `a` to `b` and then to `c`, with what the collector reports of it. */
  function TwiceRenamed(v: Vault, a: Path, b: Path, c: Path, data: Bytes): Turn {
    Turn("t", map[a := data],
         [RenameCall(map[a := data], map[b := data]), RenameCall(map[b := data], map[c := data])],
         [RenameRow(v, b, c, data)])
  }

  lemma TwiceRenamedPlays(v: Vault, a: Path, b: Path, c: Path, data: Bytes)
    requires a != b && a != c && b != c
    ensures var t := TwiceRenamed(v, a, b, c, data);
      && HonestRun(t.start, t.calls)
      && Play(v.hash, FRESH, t.start, t.calls) ==
           (State(map[c := RenamedEntry(b, data)], None, None, true), map[c := data])
  {
    ChainedRenameExample(v, a, b, c, data, []);
  }

  lemma TwiceRenamedIsReported(v: Vault, a: Path, b: Path, c: Path, data: Bytes)
    requires a != b && a != c && b != c && Readable(v, v.hash(data))
    ensures var t := TwiceRenamed(v, a, b, c, data);
      Reported(v, t, map[c := data]) && Acceptable(v, t, map[c := data]) && !Revertible(v, t, map[c := data])
  {
    var t := TwiceRenamed(v, a, b, c, data);
    var files := map[c := RenamedEntry(b, data)];
    TwiceRenamedPlays(v, a, b, c, data);
    OneRowReports(v, files, c, t.rows[0]);
    OneRenameIsAcceptable(files, c, b, map[c := data]);
    GhostIsWrong(v, t, map[c := data], c, b);
  }

  lemma OneRenameIsAcceptable(files: map<Path, Entry>, n: Path, o: Path, now: Files)
    requires files.Keys == {n} && files[n].oldPath == Some(o) && n in now && o !in now
    ensures RenamesLanded(files, now) && OldEndsFirst(files, now) && OldsDistinct(files)
  {}

  /**
   A file renamed twice in one turn: the plan made from the report is accepted, meets no conflict, completes, and leaves
   the file under the path that it had in between.
   */
  lemma ChainedRestoreExample(v: Vault, a: Path, b: Path, c: Path, data: Bytes, env: Environment)
    requires a != b && a != c && b != c && Quiet(env) && Readable(v, v.hash(data))
    ensures var t := TwiceRenamed(v, a, b, c, data);
      var steps := PlanSteps(v, SetsOf([t]));
      var run := ApplyUnder(v, map[c := data], steps, env, 0);
      && Reported(v, t, map[c := data])
      && ChangeBlockers(v, SetsOf([t])) == [] && StepBlockers(v, map[c := data], steps) == []
      && run.error.None? && View(v.hash, run.files) == map[b := v.hash(data)]
      && View(v.hash, run.files) != View(v.hash, t.start)
  {
    TwiceRenamedIsReported(v, a, b, c, data);
    AcceptedButWrong(v, map[c := data], TwiceRenamed(v, a, b, c, data), env);
    TwiceRenamedBack(v, a, b, c, data);
  }

  lemma TwiceRenamedBack(v: Vault, a: Path, b: Path, c: Path, data: Bytes)
    requires b != c && Readable(v, v.hash(data))
    ensures var t := TwiceRenamed(v, a, b, c, data);
      Replay(View(v.hash, map[c := data]), RowSteps(v, t.id, t.rows)) == map[b := v.hash(data)]
  {
    OneFile(v, c, data);
    RenameRowBack(v, "t", b, c, data, map[c := v.hash(data)]);
    assert (map[c := v.hash(data)] - {c})[b := v.hash(data)] == map[b := v.hash(data)];
  }

  lemma OneFile(v: Vault, p: Path, data: Bytes)
    ensures View(v.hash, map[p := data]) == map[p := v.hash(data)]
  {}

  // ---------------------------------------------------------------- two wrong reports

  function CreatedRow(v: Vault, p: Path, data: Bytes): Change {
    Change(Created, Some(p), None, None, None, Some(v.hash(data)), Some(v.hash(data)))
  }

  /** Next to a file `c` that stays, a file is renamed from `z` to `a` and then to `q`. */
  function Newer(v: Vault, a: Path, z: Path, c: Path, q: Path, data: Bytes): Turn {
    var w: Files := map[c := data];
    Turn("t2", w[z := data], [RenameCall(w[z := data], w[a := data]), RenameCall(w[a := data], w[q := data])],
         [RenameRow(v, a, q, data)])
  }

  lemma NewerIsReported(v: Vault, a: Path, z: Path, c: Path, q: Path, data: Bytes)
    requires a != z && a != c && a != q && z != c && z != q && c != q && Readable(v, v.hash(data))
    ensures var t := Newer(v, a, z, c, q, data); var end := map[c := data, q := data];
      Reported(v, t, end) && !Revertible(v, t, end)
  {
    var t := Newer(v, a, z, c, q, data);
    var w: Files := map[c := data];
    var files := map[q := RenamedEntry(a, data)];
    PlayTwo(v.hash, FRESH, t.start, t.calls[0], t.calls[1]);
    RenameFolds(v.hash, map[], w, z, a, data);
    RenameFolds(v.hash, map[a := RenamedEntry(z, data)], w, a, q, data);
    TwoHonest(t.start, t.calls[0], t.calls[1]);
    assert Collected(v, t) == files && w[q := data] == map[c := data, q := data];
    OneRowReports(v, files, q, t.rows[0]);
    GhostIsWrong(v, t, map[c := data, q := data], q, a);
  }

  /** A file is renamed from `a` to `z` and then to `c`, and `z` is written anew with the same content. */
  function Older(v: Vault, a: Path, z: Path, c: Path, data: Bytes): Turn {
    var w0: Files, w1: Files, w2: Files := map[a := data], map[z := data], map[c := data];
    Turn("t1", w0, [RenameCall(w0, w1), RenameCall(w1, w2), WriteCall(z, w2, data)],
         [RenameRow(v, z, c, data), CreatedRow(v, z, data)])
  }

  lemma PlayThree(hash: Bytes -> Digest, workspace: Files, c: Call, d: Call, e: Call)
    ensures var st2 := Observe(hash, Observe(hash, FRESH, workspace, c), c.workspace, d);
      Play(hash, FRESH, workspace, [c, d, e]) == (Observe(hash, st2, d.workspace, e), e.workspace)
    ensures Honest(workspace, c) && Honest(c.workspace, d) && Honest(d.workspace, e) ==> HonestRun(workspace, [c, d, e])
  {
    assert [c, d, e][1..] == [d, e];
    PlayTwo(hash, Observe(hash, FRESH, workspace, c), c.workspace, d, e);
    if Honest(c.workspace, d) && Honest(d.workspace, e) { TwoHonest(c.workspace, d, e); }
  }

  function OlderFiles(z: Path, c: Path, data: Bytes): map<Path, Entry> {
    map[c := RenamedEntry(z, data), z := Entry(None, Some(data), false, None)]
  }

  lemma OlderPlays(v: Vault, a: Path, z: Path, c: Path, data: Bytes)
    requires a != z && a != c && z != c
    ensures var t := Older(v, a, z, c, data);
      && HonestRun(t.start, t.calls)
      && Play(v.hash, FRESH, t.start, t.calls) ==
           (State(OlderFiles(z, c, data), None, None, true), map[c := data, z := data])
  {
    var t := Older(v, a, z, c, data);
    var w2: Files := map[c := data];
    PlayThree(v.hash, t.start, t.calls[0], t.calls[1], t.calls[2]);
    RenameFolds(v.hash, map[], map[], a, z, data);
    RenameFolds(v.hash, map[z := RenamedEntry(a, data)], map[], z, c, data);
    WritePlays(v, z, c, data);
    assert w2[z := data] == map[c := data, z := data];
  }

  lemma WritePlays(v: Vault, z: Path, c: Path, data: Bytes)
    requires z != c
    ensures Observe(v.hash, State(map[c := RenamedEntry(z, data)], None, None, true), map[c := data],
                    WriteCall(z, map[c := data], data))
         == State(OlderFiles(z, c, data), None, None, true)
  {
    var files := map[c := RenamedEntry(z, data)][z := Entry(None, None, false, None)];
    assert files[z := Entry(None, Some(data), false, None)] == OlderFiles(z, c, data);
  }

  lemma OlderIsReported(v: Vault, a: Path, z: Path, c: Path, data: Bytes)
    requires a != z && a != c && z != c && Before(c, z) && Readable(v, v.hash(data))
    ensures var t := Older(v, a, z, c, data); var end := map[c := data, z := data];
      Reported(v, t, end) && !Revertible(v, t, end)
  {
    var t := Older(v, a, z, c, data);
    OlderPlays(v, a, z, c, data);
    TwoRowsReport(v, OlderFiles(z, c, data), c, z, t.rows[0], t.rows[1]);
    GhostIsWrong(v, t, map[c := data, z := data], c, z);
  }

  lemma TwoRowsReport(v: Vault, files: map<Path, Entry>, p: Path, q: Path, row: Change, other: Change)
    requires files.Keys == {p, q} && Before(p, q) && p != q && RowOf(v, p, files[p], row)
    requires RowOf(v, q, files[q], other)
    ensures Reports(v, files, [row, other])
  {
    assert [row, other][0].path == Some(p) && [row, other][1].path == Some(q);
  }

  lemma CreatedRowBack(v: Vault, turnId: string, p: Path, data: Bytes, view: map<Path, Digest>)
    requires Readable(v, v.hash(data)) && Look(view, p) == Some(v.hash(data))
    ensures var row := CreatedRow(v, p, data);
      && StepsForChange(v, turnId, row).Ok? && Chained(view, StepsForChange(v, turnId, row).value)
      && Replay(view, StepsForChange(v, turnId, row).value) == view - {p}
  {
    var d := Some(v.hash(data));
    var s := Step(turnId, p, FileState(true, d, d), ABSENT);
    assert StepsForChange(v, turnId, CreatedRow(v, p, data)) == Ok([s]);
    assert [s][1..] == [];
  }

  /** The rows of the older turn, played on a workspace in which `z` is gone. */
  lemma OlderBack(v: Vault, a: Path, z: Path, c: Path, data: Bytes)
    requires a != z && a != c && z != c && Readable(v, v.hash(data))
    ensures var t := Older(v, a, z, c, data); var view := map[c := v.hash(data), a := v.hash(data)];
      && RowBlockers(v, t.id, t.rows) == [] && Chained(view, RowSteps(v, t.id, t.rows))
      && Replay(view, RowSteps(v, t.id, t.rows)) == map[a := v.hash(data)]
  {
    var t, view := Older(v, a, z, c, data), map[c := v.hash(data), a := v.hash(data)];
    var mid := (view - {c})[z := v.hash(data)];
    RenameRowBack(v, t.id, z, c, data, view);
    CreatedRowBack(v, t.id, z, data, mid);
    assert t.rows[..1] == [t.rows[0]];
    ChainedConcat(view, RowSteps(v, t.id, [t.rows[0]]), StepsForChange(v, t.id, t.rows[1]).value);
    assert mid - {z} == map[a := v.hash(data)];
  }

  /**
   Going back to before both turns works although neither report is right: the first steps leave the file under a path
   that the second turn does not name, which is where it was at the start.
   */
  lemma TwoWrongsExample(v: Vault, a: Path, z: Path, c: Path, q: Path, data: Bytes, env: Environment)
    requires a != z && a != c && a != q && z != c && z != q && c != q && Before(c, z) && Quiet(env)
    requires Readable(v, v.hash(data))
    ensures var turns := [Newer(v, a, z, c, q, data), Older(v, a, z, c, data)]; var files := map[c := data, q := data];
      && ReportedRun(v, turns, files) && Restores(v, files, turns, env)
      && !Restores(v, files, turns[..1], env) && !AllRevertible(v, turns, files)
  {
    var newer, older := Newer(v, a, z, c, q, data), Older(v, a, z, c, data);
    var turns, files := [newer, older], map[c := data, q := data];
    assert turns[..1] == [newer] && [newer][..0] == [];
    NewerIsReported(v, a, z, c, q, data);
    OlderIsReported(v, a, z, c, data);
    NothingToRestore(v, files, env);
    assert Back(files, []) == files && Back(files, [newer]) == newer.start;
    assert newer.start == map[c := data, z := data];
    OneMoreTurn(v, files, [newer], env);
    TwoWrongsChain(v, a, z, c, q, data);
    RestoresMeans(v, files, turns, env);
  }

  lemma TwoWrongsChain(v: Vault, a: Path, z: Path, c: Path, q: Path, data: Bytes)
    requires a != z && a != c && a != q && z != c && z != q && c != q && Readable(v, v.hash(data))
    ensures var turns := [Newer(v, a, z, c, q, data), Older(v, a, z, c, data)];
      var view, steps := View(v.hash, map[c := data, q := data]), PlanSteps(v, SetsOf(turns));
      && ChangeBlockers(v, SetsOf(turns)) == [] && Chained(view, steps)
      && Replay(view, steps) == View(v.hash, map[a := data])
  {
    var newer, older := Newer(v, a, z, c, q, data), Older(v, a, z, c, data);
    var view := View(v.hash, map[c := data, q := data]);
    PlanOfTwo(v, newer, older);
    RenameRowBack(v, newer.id, a, q, data, view);
    OlderBack(v, a, z, c, data);
    assert (view - {q})[a := v.hash(data)] == map[c := v.hash(data), a := v.hash(data)];
    OneFile(v, a, data);
    ChainedConcat(view, RowSteps(v, newer.id, newer.rows), RowSteps(v, older.id, older.rows));
  }

  lemma PlanOfTwo(v: Vault, newer: Turn, older: Turn)
    ensures PlanSteps(v, SetsOf([newer, older])) ==
      RowSteps(v, newer.id, newer.rows) + RowSteps(v, older.id, older.rows)
    ensures ChangeBlockers(v, SetsOf([newer, older])) ==
      RowBlockers(v, newer.id, newer.rows) + RowBlockers(v, older.id, older.rows)
  {
    assert [newer, older][..1] == [newer];
    PlanOfOne(v, newer);
    PlanOfTurns(v, SetsOf([newer]), older);
  }
}
