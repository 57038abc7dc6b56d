/** Which turns a restore takes back, told from what the collector recorded: exact also for renames that went wrong. */
module TurnUndo {
  import opened Results
  import opened Artifacts
  import opened Changes
  import opened Collector
  import opened Checkpoint
  import opened CheckpointLaws
  import opened CollectorLaws
  import opened Paths
  import opened TurnCollector
  import opened UndoLaws

  /**
   An old path that exists again comes before the new path of its rename, so it is cleared before the file returns
   to it.
   */
  ghost predicate OldEndsFirst(files: map<Path, Entry>, now: Files) {
    forall p :: p in files && files[p].oldPath.Some? && files[p].oldPath.value in now ==>
        Before(files[p].oldPath.value, p)
  }

  function At(v: Vault, files: Files, p: Path): Option<Digest> {
    Digested(v.hash, Get(files, p))
  }

  lemma LookIsAt(v: Vault, files: Files, p: Path)
    ensures Look(View(v.hash, files), p) == At(v, files, p)
  {}

  predicate OwnIn(rows: seq<Change>, p: Path) {
    exists i :: 0 <= i < |rows| && rows[i].path == Some(p)
  }

  predicate OldIn(rows: seq<Change>, p: Path) {
    exists i :: 0 <= i < |rows| && rows[i].oldPath == Some(p)
  }

  lemma InSnoc(rows: seq<Change>, c: Change, p: Path)
    ensures OwnIn(rows + [c], p) <==> OwnIn(rows, p) || c.path == Some(p)
    ensures OldIn(rows + [c], p) <==> OldIn(rows, p) || c.oldPath == Some(p)
  {
    var all := rows + [c];
    assert all[|rows|] == c;
    if i :| 0 <= i < |rows| && rows[i].path == Some(p) { assert all[i] == rows[i]; }
    if i :| 0 <= i < |rows| && rows[i].oldPath == Some(p) { assert all[i] == rows[i]; }
  }

  /** What the row of a path leaves on it. */
  function OwnTarget(v: Vault, e: Entry): Option<Digest> {
    if e.oldPath.Some? then None else Digested(v.hash, e.before)
  }

  /** The content that the rename away from `p` put aside. */
  ghost function OldTarget(v: Vault, files: map<Path, Entry>, p: Path): Option<Digest>
    requires RenamedAway(files, p)
  {
    var m :| m in files && files[m].oldPath == Some(p);
    Digested(v.hash, files[m].before)
  }

  /** The workspace after the steps of some rows: old ends are back, own rows are undone, the rest is as it is now. */
  ghost function BackAt(v: Vault, files: map<Path, Entry>, rows: seq<Change>, now: Files, p: Path): Option<Digest> {
    if OldIn(rows, p) && RenamedAway(files, p) then OldTarget(v, files, p)
    else if OwnIn(rows, p) && p in files then OwnTarget(v, files[p])
    else At(v, now, p)
  }

  ghost predicate Stored(c: Change) {
    (c.beforeSha.Some? ==> c.beforeBlob.Some?) && (c.afterSha.Some? ==> c.afterBlob.Some?)
  }

  /** The steps of one row, played where its path is as recorded and its old path is free. */
  lemma RowBack(v: Vault, turnId: string, e: Entry, c: Change, p: Path, view: map<Path, Digest>)
    requires RowOf(v, p, e, c) && Stored(c) && Look(view, p) == Digested(v.hash, e.after)
    requires e.oldPath.Some? ==>
      && e.before.Some? && e.after.Some? && e.oldPath.value != p
      && Look(view, e.oldPath.value) == None
    ensures var made := StepsForChange(v, turnId, c);
      && made.Ok? && Chained(view, made.value)
      && forall q :: Look(Replay(view, made.value), q) ==
           if e.oldPath == Some(q) then Digested(v.hash, e.before) else if q == p then OwnTarget(v, e)
           else Look(view, q)
  {
    var steps := StepsForChange(v, turnId, c).value;
    if c.kind.Renamed? {
      var s0, s1 := steps[0], steps[1];
      var mid := Set(view, s0.path, Sig(s0.target));
      assert steps[1..] == [s1] && [s1][1..] == [];
      assert Replay(mid, [s1]) == Set(mid, s1.path, Sig(s1.target));
    } else {
      assert steps[1..] == [];
    }
  }

  /** What the collector knows of `p` is enough to play the rows back, right or wrong. */
  ghost predicate PlayableAt(hash: Bytes -> Digest, files: map<Path, Entry>, now: Files, p: Path) {
    && (p in files ==>
      && Digested(hash, files[p].after) == Digested(hash, Get(now, p))
      && (files[p].oldPath.Some? ==> files[p].before.Some? && files[p].oldPath.value != p))
    && (RenamedAway(files, p) ==> if p in files then files[p].oldPath.Some? || files[p].before.None? else p !in now)
  }

  ghost predicate Playable(hash: Bytes -> Digest, files: map<Path, Entry>, now: Files) {
    forall p :: PlayableAt(hash, files, now, p)
  }

  lemma FollowedIsPlayable(hash: Bytes -> Digest, files: map<Path, Entry>, org: Origins, start: Files, now: Files)
    requires Follows(hash, files, org, start, now)
    ensures Playable(hash, files, now)
  {
    forall p ensures PlayableAt(hash, files, now, p) {
      assert FollowedAt(hash, files, org, start, now, p);
      if n :| n in files && files[n].oldPath == Some(p) { assert FollowedAt(hash, files, org, start, now, n); }
    }
  }

  /** The collector's rows, with the conditions under which each can be played back. */
  ghost predicate GoodTurn(v: Vault, files: map<Path, Entry>, rows: seq<Change>, now: Files) {
    && Playable(v.hash, files, now) && Reports(v, files, rows) && Kept(rows)
    && RenamesLanded(files, now) && OldEndsFirst(files, now) && OldsDistinct(files)
  }

  /** A renamed-away path exists again exactly when it has a row. */
  lemma ReturnedHasRow(v: Vault, files: map<Path, Entry>, rows: seq<Change>, now: Files, o: Path)
    requires GoodTurn(v, files, rows, now) && RenamedAway(files, o)
    ensures o in now <==> OwnIn(rows, o)
    ensures o in files ==> OwnTarget(v, files[o]) == None
  {
    assert PlayableAt(v.hash, files, now, o);
    if OwnIn(rows, o) {
      var i :| 0 <= i < |rows| && rows[i].path == Some(o);
      assert RowFor(v, files, rows[i]);
    }
  }

  /** When its turn comes, the path of a row has not been touched by earlier rows. */
  lemma RowPathIsFresh(v: Vault, files: map<Path, Entry>, rows: seq<Change>, now: Files, n: nat)
    requires GoodTurn(v, files, rows, now) && n < |rows|
    ensures rows[n].path.Some? && !OwnIn(rows[..n], rows[n].path.value) && !OldIn(rows[..n], rows[n].path.value)
  {
    var c := rows[n];
    var p := c.path.value;
    if i :| 0 <= i < n && rows[..n][i].oldPath == Some(p) {
      var m := rows[i].path.value;
      assert RowFor(v, files, rows[i]) && Earlier(rows[i], c);
      assert RenamedAway(files, p);
      ReturnedHasRow(v, files, rows, now, p);
      assert OwnIn(rows, p);
      BeforeTransitive(p, m, p);
      BeforeIrreflexive(p);
    }
  }

  lemma OneRowPerOldEnd(v: Vault, files: map<Path, Entry>, rows: seq<Change>, now: Files, n: nat)
    requires OldsDistinct(files) && Reports(v, files, rows) && n < |rows| && rows[n].oldPath.Some?
    ensures !OldIn(rows[..n], rows[n].oldPath.value)
  {
    assert RowFor(v, files, rows[n]);
    forall i | 0 <= i < n ensures rows[..n][i].oldPath != rows[n].oldPath {
      assert RowFor(v, files, rows[i]) && rows[i].path != rows[n].path;
    }
  }

  /** When its turn comes, the old path of a rename is free. */
  lemma OldPathIsFree(v: Vault, files: map<Path, Entry>, rows: seq<Change>, now: Files, n: nat)
    requires GoodTurn(v, files, rows, now) && n < |rows| && rows[n].oldPath.Some?
    ensures BackAt(v, files, rows[..n], now, rows[n].oldPath.value) == None
  {
    var c := rows[n];
    var p, o := c.path.value, c.oldPath.value;
    assert RowFor(v, files, c) && RenamedAway(files, o);
    ReturnedHasRow(v, files, rows, now, o);
    OneRowPerOldEnd(v, files, rows, now, n);
    if o in now {
      var i :| 0 <= i < |rows| && rows[i].path == Some(o);
      BeforeIrreflexive(o);
      if n < i { assert Earlier(c, rows[i]); BeforeTransitive(o, p, o); }
      assert rows[..n][i].path == Some(o);
    }
  }

  lemma {:induction false} RowsBack(v: Vault, turnId: string, files: map<Path, Entry>, rows: seq<Change>, now: Files,
                                    n: nat)
    requires GoodTurn(v, files, rows, now) && n <= |rows|
    ensures RowBlockers(v, turnId, rows[..n]) == []
    ensures Chained(View(v.hash, now), RowSteps(v, turnId, rows[..n]))
    ensures forall q {:trigger BackAt(v, files, rows[..n], now, q)} ::
      Look(Replay(View(v.hash, now), RowSteps(v, turnId, rows[..n])), q) == BackAt(v, files, rows[..n], now, q)
  {
    if n == 0 {
      forall q ensures Look(View(v.hash, now), q) == BackAt(v, files, [], now, q) { LookIsAt(v, now, q); }
    } else {
      RowsBack(v, turnId, files, rows, now, n - 1);
      RowsBackStep(v, turnId, files, rows, now, n - 1);
    }
  }

  /** One more row puts its old path back and takes its own away; the others stay. */
  lemma BackAtNext(v: Vault, files: map<Path, Entry>, rows: seq<Change>, now: Files, n: nat, q: Path)
    requires GoodTurn(v, files, rows, now) && n < |rows| && RowFor(v, files, rows[n])
    requires !OwnIn(rows[..n], rows[n].path.value) && !OldIn(rows[..n], rows[n].path.value)
    ensures BackAt(v, files, rows[..n + 1], now, q) ==
      var e := files[rows[n].path.value];
      if e.oldPath == Some(q) then Digested(v.hash, e.before)
      else if rows[n].path == Some(q) then OwnTarget(v, e)
      else BackAt(v, files, rows[..n], now, q)
  {
    assert rows[..n + 1] == rows[..n] + [rows[n]];
    InSnoc(rows[..n], rows[n], q);
    if rows[n].oldPath == Some(q) { assert RenamedAway(files, q); }
  }

  lemma RowsBackStep(v: Vault, turnId: string, files: map<Path, Entry>, rows: seq<Change>, now: Files, n: nat)
    requires GoodTurn(v, files, rows, now) && n < |rows|
    requires RowBlockers(v, turnId, rows[..n]) == [] && Chained(View(v.hash, now), RowSteps(v, turnId, rows[..n]))
    requires forall q {:trigger BackAt(v, files, rows[..n], now, q)} ::
      Look(Replay(View(v.hash, now), RowSteps(v, turnId, rows[..n])), q) == BackAt(v, files, rows[..n], now, q)
    ensures RowBlockers(v, turnId, rows[..n + 1]) == []
    ensures Chained(View(v.hash, now), RowSteps(v, turnId, rows[..n + 1]))
    ensures forall q {:trigger BackAt(v, files, rows[..n + 1], now, q)} ::
      Look(Replay(View(v.hash, now), RowSteps(v, turnId, rows[..n + 1])), q) == BackAt(v, files, rows[..n + 1], now, q)
  {
    var c := rows[n];
    var p := c.path.value;
    var e := files[p];
    var view := Replay(View(v.hash, now), RowSteps(v, turnId, rows[..n]));
    assert c in rows && RowFor(v, files, c) && PlayableAt(v.hash, files, now, p);
    RowPathIsFresh(v, files, rows, now, n);
    assert Look(view, p) == BackAt(v, files, rows[..n], now, p);
    if c.oldPath.Some? {
      OldPathIsFree(v, files, rows, now, n);
      assert Look(view, c.oldPath.value) == BackAt(v, files, rows[..n], now, c.oldPath.value);
    }
    RowBack(v, turnId, e, c, p, view);
    var steps := StepsForChange(v, turnId, c).value;
    assert rows[..n + 1][..n] == rows[..n];
    ChainedConcat(View(v.hash, now), RowSteps(v, turnId, rows[..n]), steps);
    forall q ensures Look(Replay(view, steps), q) == BackAt(v, files, rows[..n + 1], now, q) {
      BackAtNext(v, files, rows, now, n, q);
      assert Look(view, q) == BackAt(v, files, rows[..n], now, q);
    }
  }

  /** Played back as a whole, the rows are possible and leave what they say. */
  lemma PlayedBack(v: Vault, turnId: string, files: map<Path, Entry>, rows: seq<Change>, now: Files, q: Path)
    requires GoodTurn(v, files, rows, now)
    ensures RowBlockers(v, turnId, rows) == [] && Chained(View(v.hash, now), RowSteps(v, turnId, rows))
    ensures Look(Replay(View(v.hash, now), RowSteps(v, turnId, rows)), q) == BackAt(v, files, rows, now, q)
  {
    RowsBack(v, turnId, files, rows, now, |rows|);
    assert rows[..|rows|] == rows;
    assert Look(Replay(View(v.hash, now), RowSteps(v, turnId, rows[..|rows|])), q) ==
        BackAt(v, files, rows[..|rows|], now, q);
  }

  /** When the recorded old paths are right, every path is as it was at the start after all rows. */
  lemma AllBack(v: Vault, files: map<Path, Entry>, rows: seq<Change>, start: Files, now: Files, q: Path)
    requires Tracks(v.hash, files, start, now) && Reports(v, files, rows)
    ensures BackAt(v, files, rows, now, q) == At(v, start, q)
  {
    assert TrackedAt(v.hash, files, start, now, q);
    if RenamedAway(files, q) {
      var m :| m in files && files[m].oldPath == Some(q);
      var i :| 0 <= i < |rows| && rows[i].path == Some(m);
      assert RowFor(v, files, rows[i]) && TrackedAt(v.hash, files, start, now, m);
      assert OldIn(rows, q) && OldTarget(v, files, q) == Digested(v.hash, files[m].before);
    } else {
      if i :| 0 <= i < |rows| && rows[i].oldPath == Some(q) { assert RowFor(v, files, rows[i]); }
      if i :| 0 <= i < |rows| && rows[i].path == Some(q) { assert RowFor(v, files, rows[i]); }
    }
  }

  lemma GoodTurnIsUndone(v: Vault, turnId: string, files: map<Path, Entry>, rows: seq<Change>, start: Files, now: Files)
    requires GoodTurn(v, files, rows, now) && Tracks(v.hash, files, start, now)
    ensures Undoes(v, turnId, rows, View(v.hash, now), View(v.hash, start))
  {
    PlayedBack(v, turnId, files, rows, now, "");
    var out := Replay(View(v.hash, now), RowSteps(v, turnId, rows));
    forall q ensures Look(out, q) == Look(View(v.hash, start), q) {
      PlayedBack(v, turnId, files, rows, now, q);
      AllBack(v, files, rows, start, now, q);
      LookIsAt(v, start, q);
    }
    SameLooks(out, View(v.hash, start));
  }

  /** Rows that lead back to the start put every file back where it was. */
  lemma UndoneHeld(v: Vault, turnId: string, files: map<Path, Entry>, rows: seq<Change>, start: Files, now: Files)
    requires GoodTurn(v, files, rows, now) && Undoes(v, turnId, rows, View(v.hash, now), View(v.hash, start))
    ensures OldsHeld(v.hash, files, start)
  {
    forall p | p in files && files[p].oldPath.Some?
      ensures Digested(v.hash, files[p].before) == Digested(v.hash, Get(start, files[p].oldPath.value))
    {
      var o := files[p].oldPath.value;
      var i :| 0 <= i < |rows| && rows[i].path == Some(p);
      assert RowFor(v, files, rows[i]) && RenamedAway(files, o) && OldIn(rows, o);
      PlayedBack(v, turnId, files, rows, now, o);
      LookIsAt(v, start, o);
      assert OldTarget(v, files, o) == Digested(v.hash, files[p].before);
    }
  }

  // ---------------------------------------------------------------- the other direction

  lemma {:induction false} BadRowBlocks(v: Vault, turnId: string, rows: seq<Change>, i: nat)
    requires i < |rows| && StepsForChange(v, turnId, rows[i]).Err?
    ensures RowBlockers(v, turnId, rows) != []
    decreases |rows|
  {
    if i < |rows| - 1 { BadRowBlocks(v, turnId, rows[..|rows| - 1], i); }
  }

  /** Rows that do not name a path leave it alone. */
  lemma {:induction false} UnnamedIsUntouched(v: Vault, turnId: string, rows: seq<Change>, view: map<Path, Digest>,
                                              q: Path, i: nat, k: nat)
    requires i <= k <= |rows| && forall j :: i <= j < k ==> rows[j].path != Some(q) && rows[j].oldPath != Some(q)
    ensures Look(Replay(view, RowSteps(v, turnId, rows[..k])), q) ==
      Look(Replay(view, RowSteps(v, turnId, rows[..i])), q)
    decreases k - i
  {
    if i < k {
      var init, c := rows[..k - 1], rows[k - 1];
      assert rows[..k][..k - 1] == init;
      UnnamedIsUntouched(v, turnId, rows, view, q, i, k - 1);
      if StepsForChange(v, turnId, c).Ok? {
        var steps := StepsForChange(v, turnId, c).value;
        ChainedConcat(view, RowSteps(v, turnId, init), steps);
        RowTouches(v, turnId, c, Replay(view, RowSteps(v, turnId, init)), q);
      }
    }
  }

  lemma RowTouches(v: Vault, turnId: string, c: Change, view: map<Path, Digest>, q: Path)
    requires StepsForChange(v, turnId, c).Ok? && c.path != Some(q) && c.oldPath != Some(q)
    ensures Look(Replay(view, StepsForChange(v, turnId, c).value), q) == Look(view, q)
  {
    var steps := StepsForChange(v, turnId, c).value;
    EndsExist(steps, q);
    ReplayElsewhere(view, steps, q);
  }

  lemma {:induction false} PrefixChains(v: Vault, turnId: string, rows: seq<Change>, view: map<Path, Digest>, n: nat)
    requires n <= |rows| && Chained(view, RowSteps(v, turnId, rows))
    ensures Chained(view, RowSteps(v, turnId, rows[..n]))
    decreases |rows|
  {
    if n < |rows| {
      var init, c := rows[..|rows| - 1], rows[|rows| - 1];
      if StepsForChange(v, turnId, c).Ok? {
        ChainedConcat(view, RowSteps(v, turnId, init), StepsForChange(v, turnId, c).value);
      }
      PrefixChains(v, turnId, init, view, n);
      assert init[..n] == rows[..n];
    } else {
      assert rows[..n] == rows;
    }
  }

  /** A rename cannot be taken back onto a path that is not free. */
  lemma OccupiedConflicts(v: Vault, turnId: string, c: Change, view: map<Path, Digest>)
    requires StepsForChange(v, turnId, c).Ok? && c.kind.Renamed? && c.oldPath != c.path
    requires Look(view, c.oldPath.value) != None
    ensures !Chained(view, StepsForChange(v, turnId, c).value)
  {
    var steps := StepsForChange(v, turnId, c).value;
    assert steps[1..] == [steps[1]];
  }

  /** A row that finds its old path occupied is a blocker or a conflict. */
  lemma OccupiedFails(v: Vault, turnId: string, files: map<Path, Entry>, rows: seq<Change>, view: map<Path, Digest>,
                      k: nat)
    requires Reports(v, files, rows) && k < |rows| && rows[k].oldPath.Some? && rows[k].oldPath != rows[k].path
    requires Look(Replay(view, RowSteps(v, turnId, rows[..k])), rows[k].oldPath.value) != None
    ensures RowBlockers(v, turnId, rows) != [] || !Chained(view, RowSteps(v, turnId, rows))
  {
    assert RowFor(v, files, rows[k]);
    if StepsForChange(v, turnId, rows[k]).Ok? {
      OccupiedConflicts(v, turnId, rows[k], Replay(view, RowSteps(v, turnId, rows[..k])));
      ChainsThrough(v, turnId, rows, view, k);
    } else {
      BadRowBlocks(v, turnId, rows, k);
    }
  }

  /** A rename whose old path exists again, and is not cleared earlier, is a blocker or a conflict. */
  lemma {:induction false} LateOldEndFails(v: Vault, turnId: string, files: map<Path, Entry>, rows: seq<Change>,
                                           now: Files, k: nat)
    requires Playable(v.hash, files, now) && Reports(v, files, rows)
    requires k < |rows| && rows[k].oldPath.Some? && rows[k].path.Some?
    requires rows[k].oldPath.value in now && !Before(rows[k].oldPath.value, rows[k].path.value)
    ensures RowBlockers(v, turnId, rows) != [] || !Chained(View(v.hash, now), RowSteps(v, turnId, rows))
    decreases k
  {
    var p, o := rows[k].path.value, rows[k].oldPath.value;
    assert RowFor(v, files, rows[k]) && PlayableAt(v.hash, files, now, p);
    if j :| 0 <= j < k && rows[j].oldPath == Some(o) {
      assert Earlier(rows[j], rows[k]);
      if Before(o, rows[j].path.value) { BeforeTransitive(o, rows[j].path.value, p); }
      LateOldEndFails(v, turnId, files, rows, now, j);
    } else {
      assert forall j :: 0 <= j < k ==> Earlier(rows[j], rows[k]);
      UnnamedIsUntouched(v, turnId, rows, View(v.hash, now), o, 0, k);
      LookIsAt(v, now, o);
      OccupiedFails(v, turnId, files, rows, View(v.hash, now), k);
    }
  }

  /** A renamed-away path that does not exist has no row of its own. */
  lemma GoneHasNoRow(v: Vault, files: map<Path, Entry>, rows: seq<Change>, now: Files, o: Path)
    requires Playable(v.hash, files, now) && Reports(v, files, rows) && RenamesLanded(files, now)
    requires RenamedAway(files, o) && o !in now
    ensures !OwnIn(rows, o)
  {
    assert PlayableAt(v.hash, files, now, o);
    forall i | 0 <= i < |rows| ensures rows[i].path != Some(o) { assert RowFor(v, files, rows[i]); }
  }

  lemma RenameLeaves(v: Vault, turnId: string, c: Change, view: map<Path, Digest>)
    requires c.kind.Renamed? && c.oldPath.Some? && StepsForChange(v, turnId, c).Ok?
    ensures Look(Replay(view, StepsForChange(v, turnId, c).value), c.oldPath.value) != None
  {
    var steps := StepsForChange(v, turnId, c).value;
    var s0, s1 := steps[0], steps[1];
    assert steps[1..] == [s1] && [s1][1..] == [];
    var mid := Set(view, s0.path, Sig(s0.target));
    assert Replay(mid, [s1]) == Set(mid, s1.path, Sig(s1.target));
  }

  /** What a possible row puts back on its old path. */
  lemma OldPathIsBack(v: Vault, turnId: string, rows: seq<Change>, view: map<Path, Digest>, k: nat)
    requires k < |rows| && rows[k].kind.Renamed? && rows[k].oldPath.Some? && StepsForChange(v, turnId, rows[k]).Ok?
    ensures Look(Replay(view, RowSteps(v, turnId, rows[..k + 1])), rows[k].oldPath.value) != None
  {
    assert rows[..k + 1][..k] == rows[..k];
    ChainedConcat(view, RowSteps(v, turnId, rows[..k]), StepsForChange(v, turnId, rows[k]).value);
    RenameLeaves(v, turnId, rows[k], Replay(view, RowSteps(v, turnId, rows[..k])));
  }

  /** Two renames away from one path cannot both be taken back when nothing clears it in between. */
  lemma {:induction false} SharedOldEndFails(v: Vault, turnId: string, files: map<Path, Entry>, rows: seq<Change>,
                                             now: Files, i: nat, k: nat)
    requires Playable(v.hash, files, now) && Reports(v, files, rows)
    requires i < k < |rows| && rows[i].oldPath.Some? && rows[i].oldPath == rows[k].oldPath
    requires forall j :: i < j < k ==> rows[j].path != rows[i].oldPath
    ensures RowBlockers(v, turnId, rows) != [] || !Chained(View(v.hash, now), RowSteps(v, turnId, rows))
    decreases k - i
  {
    var o := rows[i].oldPath.value;
    assert RowFor(v, files, rows[i]) && RowFor(v, files, rows[k]);
    assert PlayableAt(v.hash, files, now, rows[i].path.value) && PlayableAt(v.hash, files, now, rows[k].path.value);
    if j :| i < j < k && rows[j].oldPath == Some(o) {
      SharedOldEndFails(v, turnId, files, rows, now, i, j);
    } else if StepsForChange(v, turnId, rows[i]).Err? {
      BadRowBlocks(v, turnId, rows, i);
    } else {
      OldPathIsBack(v, turnId, rows, View(v.hash, now), i);
      UnnamedIsUntouched(v, turnId, rows, View(v.hash, now), o, i + 1, k);
      OccupiedFails(v, turnId, files, rows, View(v.hash, now), k);
    }
  }

  lemma ChainsThrough(v: Vault, turnId: string, rows: seq<Change>, view: map<Path, Digest>, k: nat)
    requires k < |rows| && StepsForChange(v, turnId, rows[k]).Ok?
    ensures Chained(view, RowSteps(v, turnId, rows)) ==>
      Chained(Replay(view, RowSteps(v, turnId, rows[..k])), StepsForChange(v, turnId, rows[k]).value)
  {
    if Chained(view, RowSteps(v, turnId, rows)) {
      PrefixChains(v, turnId, rows, view, k + 1);
      assert rows[..k + 1][..k] == rows[..k];
      ChainedConcat(view, RowSteps(v, turnId, rows[..k]), StepsForChange(v, turnId, rows[k]).value);
    }
  }

  /** A rename without its new path cannot be taken back. */
  lemma LostRenameFails(v: Vault, turnId: string, files: map<Path, Entry>, rows: seq<Change>, now: Files)
    requires Playable(v.hash, files, now) && Reports(v, files, rows) && !RenamesLanded(files, now)
    ensures RowBlockers(v, turnId, rows) != []
  {
    var p :| p in files && files[p].oldPath.Some? && p !in now;
    var i :| 0 <= i < |rows| && rows[i].path == Some(p);
    assert RowFor(v, files, rows[i]) && PlayableAt(v.hash, files, now, p);
    assert rows[i].kind.Renamed? && rows[i].afterSha.None?;
    BadRowBlocks(v, turnId, rows, i);
  }

  lemma OldEndsClashFails(v: Vault, turnId: string, files: map<Path, Entry>, rows: seq<Change>, now: Files)
    requires Playable(v.hash, files, now) && Reports(v, files, rows) && RenamesLanded(files, now)
    requires !OldEndsFirst(files, now) || !OldsDistinct(files)
    ensures RowBlockers(v, turnId, rows) != [] || !Chained(View(v.hash, now), RowSteps(v, turnId, rows))
  {
    if !OldEndsFirst(files, now) {
      var p :| p in files && files[p].oldPath.Some? && files[p].oldPath.value in now
          && !Before(files[p].oldPath.value, p);
      var k := RowWithOldPath(v, files, rows, p);
      LateOldEndFails(v, turnId, files, rows, now, k);
    } else {
      var p, q :| p in files && q in files && files[p].oldPath.Some? && files[p].oldPath == files[q].oldPath && p != q;
      var i := RowWithOldPath(v, files, rows, p);
      var k := RowWithOldPath(v, files, rows, q);
      NothingClears(v, files, rows, now, i);
      NothingClears(v, files, rows, now, k);
      SharedOldEndFails(v, turnId, files, rows, now, if i < k then i else k, if i < k then k else i);
    }
  }

  /** Every renamed entry has a row. */
  lemma RowWithOldPath(v: Vault, files: map<Path, Entry>, rows: seq<Change>, p: Path) returns (i: nat)
    requires Reports(v, files, rows) && p in files && files[p].oldPath.Some?
    ensures i < |rows| && rows[i].path == Some(p) && rows[i].oldPath == files[p].oldPath
  {
    i :| 0 <= i < |rows| && rows[i].path == Some(p);
    assert RowFor(v, files, rows[i]);
  }

  /** The rows behind a rename do not clear its old path. */
  lemma NothingClears(v: Vault, files: map<Path, Entry>, rows: seq<Change>, now: Files, i: nat)
    requires Playable(v.hash, files, now) && Reports(v, files, rows) && RenamesLanded(files, now)
    requires OldEndsFirst(files, now)
    requires i < |rows| && rows[i].oldPath.Some?
    ensures forall j :: i < j < |rows| ==> rows[j].path != rows[i].oldPath
  {
    assert RowFor(v, files, rows[i]);
    var p, o := rows[i].path.value, rows[i].oldPath.value;
    assert RenamedAway(files, o);
    if o !in now { GoneHasNoRow(v, files, rows, now, o); }
    forall j | i < j < |rows| ensures rows[j].path != Some(o) {
      assert Earlier(rows[i], rows[j]);
      BeforeIrreflexive(o);
      if Before(o, p) && Before(p, o) { BeforeTransitive(o, p, o); }
    }
  }

  /** A row without a snapshot that it needs is a blocker. */
  lemma UnkeptFails(v: Vault, turnId: string, files: map<Path, Entry>, rows: seq<Change>)
    requires Reports(v, files, rows) && !Kept(rows)
    ensures RowBlockers(v, turnId, rows) != []
  {
    var c :| c in rows && !RowKept(c);
    var i :| 0 <= i < |rows| && rows[i] == c;
    assert RowFor(v, files, rows[i]);
    BadRowBlocks(v, turnId, rows, i);
  }

  /**
   The rows of a turn can be played back, without blocker or conflict, if and only if every snapshot was stored, every
   folded rename still has its new path, every old path that exists again sorts before the new one, and no two renames
   share an old path.
   */
  lemma AcceptedIff(v: Vault, turnId: string, files: map<Path, Entry>, org: Origins, rows: seq<Change>, start: Files,
                    now: Files)
    requires Follows(v.hash, files, org, start, now) && Reports(v, files, rows)
    ensures RowBlockers(v, turnId, rows) == [] && Chained(View(v.hash, now), RowSteps(v, turnId, rows)) <==>
      Kept(rows) && RenamesLanded(files, now) && OldEndsFirst(files, now) && OldsDistinct(files)
  {
    FollowedIsPlayable(v.hash, files, org, start, now);
    if !Kept(rows) {
      UnkeptFails(v, turnId, files, rows);
    } else if !RenamesLanded(files, now) {
      LostRenameFails(v, turnId, files, rows, now);
    } else if !OldEndsFirst(files, now) || !OldsDistinct(files) {
      OldEndsClashFails(v, turnId, files, rows, now);
    } else {
      PlayedBack(v, turnId, files, rows, now, "");
    }
  }

  /**
   They then lead back to the start of the turn if and only if the recorded old paths are the origins of the renamed
   files.
   */
  lemma UndoneIff(v: Vault, turnId: string, files: map<Path, Entry>, org: Origins, rows: seq<Change>, start: Files,
                  now: Files)
    requires Follows(v.hash, files, org, start, now) && Reports(v, files, rows)
    ensures Undoes(v, turnId, rows, View(v.hash, now), View(v.hash, start)) <==>
      Kept(rows) && RenamesLanded(files, now) && OldEndsFirst(files, now) && OldsAreOrigins(v.hash, files, org)
  {
    FollowedIsPlayable(v.hash, files, org, start, now);
    AcceptedIff(v, turnId, files, org, rows, start, now);
    OldsAreOriginsIff(v.hash, files, org, start, now);
    if Kept(rows) && RenamesLanded(files, now) && OldEndsFirst(files, now) && OldsDistinct(files) {
      if OldsAreOrigins(v.hash, files, org) {
        OriginsTrack(v.hash, files, org, start, now);
        GoodTurnIsUndone(v, turnId, files, rows, start, now);
      } else if Undoes(v, turnId, rows, View(v.hash, now), View(v.hash, start)) {
        UndoneHeld(v, turnId, files, rows, start, now);
      }
    }
  }
}
