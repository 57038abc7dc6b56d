/** What a restore promises: exact success conditions, undo, crash recovery, no lost edits. */
module CheckpointLaws {
  import opened Results
  import opened Artifacts
  import opened Changes
  import opened Paths
  import opened Checkpoint

  /** The state of a file as a digest, or nothing when the file is absent. */
  function Sig(state: FileState): Option<Digest> {
    if state.present then state.sha else None
  }

  /** A state is absent, or a snapshot that can be read back. */
  ghost predicate Sound(v: Vault, state: FileState) {
    if state.present then state.sha.Some? && state.blob == state.sha && Readable(v, state.sha.value)
    else state == ABSENT
  }

  ghost predicate SoundSteps(v: Vault, steps: seq<Step>) {
    forall s :: s in steps ==> Sound(v, s.original) && Sound(v, s.target)
  }

  /** The steps carried out one after the other on digests alone. */
  function Replay(view: map<Path, Digest>, steps: seq<Step>): map<Path, Digest>
    decreases |steps|
  {
    if steps == [] then view else Replay(Set(view, steps[0].path, Sig(steps[0].target)), steps[1..])
  }

  /** Each step starts from the state its predecessors leave behind. */
  ghost predicate Chained(view: map<Path, Digest>, steps: seq<Step>)
    decreases |steps|
  {
    steps == [] ||
    (Look(view, steps[0].path) == Sig(steps[0].original)
     && Chained(Set(view, steps[0].path, Sig(steps[0].target)), steps[1..]))
  }

  /** Nobody else touches the workspace. */
  ghost predicate Quiet(env: Environment) {
    forall n, f :: env(n, f) == f
  }

  /** A state found on a path is one that the step either expects or wants to reach. */
  predicate Fits(at: Option<Digest>, s: Step) {
    at == Sig(s.original) || at == Sig(s.target)
  }

  /** Every planned path is at one end of its first step: what a forward run needs to find. */
  ghost predicate Resumable(view: map<Path, Digest>, steps: seq<Step>) {
    forall p :: FirstOn(steps, p).Some? ==> Fits(Look(view, p), FirstOn(steps, p).value)
  }

  /** Every planned path is at one end of its last step: what a rollback needs to find. */
  ghost predicate Recoverable(view: map<Path, Digest>, steps: seq<Step>) {
    forall p :: LastOn(steps, p).Some? ==> Fits(Look(view, p), LastOn(steps, p).value)
  }

  ghost predicate DistinctPaths(steps: seq<Step>) {
    forall i, j :: 0 <= i < j < |steps| ==> steps[i].path != steps[j].path
  }

  /** `out` shows `planned` on the paths of the plan and `found` everywhere else. */
  ghost predicate Overlaid(out: map<Path, Digest>, steps: seq<Step>, planned: map<Path, Digest>,
                           found: map<Path, Digest>) {
    forall p :: Look(out, p) == if LastOn(steps, p).Some? then Look(planned, p) else Look(found, p)
  }

  // ---------------------------------------------------------------- one step

  lemma InspectMeans(v: Vault, files: Files, p: Path, s: FileState)
    requires Sound(v, s)
    ensures StatesEqual(Inspect(v, files, p), s) <==> Look(View(v.hash, files), p) == Sig(s)
  {}

  lemma ApplyStepMeans(v: Vault, files: Files, s: Step)
    requires Sound(v, s.original) && Sound(v, s.target)
    ensures var r := ApplyStep(v, files, s);
      && (r.error.None? <==> Fits(Look(View(v.hash, files), s.path), s))
      && (r.error.None? ==> View(v.hash, r.files) == Set(View(v.hash, files), s.path, Sig(s.target)))
  {
    InspectMeans(v, files, s.path, s.original);
    InspectMeans(v, files, s.path, s.target);
  }

  lemma RollbackStepMeans(v: Vault, files: Files, s: Step)
    requires Sound(v, s.original) && Sound(v, s.target)
    ensures var r := RollbackStep(v, files, s);
      && (r.error.None? <==> Fits(Look(View(v.hash, files), s.path), s))
      && (r.error.None? ==> View(v.hash, r.files) == Set(View(v.hash, files), s.path, Sig(s.original)))
  {
    InspectMeans(v, files, s.path, s.original);
    InspectMeans(v, files, s.path, s.target);
  }

  // ---------------------------------------------------------------- sequences of steps

  lemma {:induction false} ChainedConcat(view: map<Path, Digest>, a: seq<Step>, b: seq<Step>)
    ensures Replay(view, a + b) == Replay(Replay(view, a), b)
    ensures Chained(view, a + b) <==> Chained(view, a) && Chained(Replay(view, a), b)
    decreases |a|
  {
    if a == [] {
      assert a + b == b;
    } else {
      assert (a + b)[1..] == a[1..] + b;
      ChainedConcat(Set(view, a[0].path, Sig(a[0].target)), a[1..], b);
    }
  }

  lemma ChainedSnoc(view: map<Path, Digest>, steps: seq<Step>)
    requires steps != []
    ensures var n := |steps| - 1; var s := steps[n];
      && Replay(view, steps) == Set(Replay(view, steps[..n]), s.path, Sig(s.target))
      && (Chained(view, steps) <==>
          Chained(view, steps[..n]) && Look(Replay(view, steps[..n]), s.path) == Sig(s.original))
  {
    var n := |steps| - 1;
    assert steps == steps[..n] + [steps[n]];
    ChainedConcat(view, steps[..n], [steps[n]]);
  }

  lemma {:induction false} LastConcat(a: seq<Step>, b: seq<Step>, p: Path)
    ensures LastOn(a + b, p) == if LastOn(b, p).Some? then LastOn(b, p) else LastOn(a, p)
    decreases |b|
  {
    if b == [] {
      assert a + b == a;
    } else {
      var init := b[..|b| - 1];
      assert (a + b)[..|a + b| - 1] == a + init;
      LastConcat(a, init, p);
    }
  }

  lemma {:induction false} FirstConcat(a: seq<Step>, b: seq<Step>, p: Path)
    ensures FirstOn(a + b, p) == if FirstOn(a, p).Some? then FirstOn(a, p) else FirstOn(b, p)
    decreases |a|
  {
    if a == [] {
      assert a + b == b;
    } else {
      assert (a + b)[1..] == a[1..] + b;
      FirstConcat(a[1..], b, p);
    }
  }

  lemma LastOne(s: Step, p: Path)
    ensures LastOn([s], p) == FirstOn([s], p) == if s.path == p then Some(s) else None
  {
    assert [s][..0] == [] && [s][1..] == [];
  }

  /** Both ends of a path's life in the plan exist together, and are steps of the plan on that path. */
  lemma {:induction false} EndsExist(steps: seq<Step>, p: Path)
    ensures FirstOn(steps, p).Some? <==> p in PathsOf(steps)
    ensures LastOn(steps, p).Some? <==> p in PathsOf(steps)
    ensures FirstOn(steps, p).Some? ==> FirstOn(steps, p).value in steps && FirstOn(steps, p).value.path == p
    ensures LastOn(steps, p).Some? ==> LastOn(steps, p).value in steps && LastOn(steps, p).value.path == p
    decreases |steps|
  {
    if steps != [] {
      var s, rest := steps[0], steps[1..];
      EndsExist(rest, p);
      LastOne(s, p);
      LastConcat([s], rest, p);
      assert steps == [s] + rest;
      assert forall t :: t in steps <==> t == s || t in rest;
    }
  }

  lemma {:induction false} ReplayElsewhere(view: map<Path, Digest>, steps: seq<Step>, p: Path)
    requires FirstOn(steps, p).None?
    ensures Look(Replay(view, steps), p) == Look(view, p)
    decreases |steps|
  {
    if steps != [] {
      ReplayElsewhere(Set(view, steps[0].path, Sig(steps[0].target)), steps[1..], p);
    }
  }

  lemma {:induction false} ReplayIsLastTarget(view: map<Path, Digest>, steps: seq<Step>, p: Path)
    requires LastOn(steps, p).Some?
    ensures Look(Replay(view, steps), p) == Sig(LastOn(steps, p).value.target)
    decreases |steps|
  {
    ChainedSnoc(view, steps);
    var n := |steps| - 1;
    if p != steps[n].path {
      ReplayIsLastTarget(view, steps[..n], p);
    }
  }

  lemma {:induction false} FirstOriginalIsStart(view: map<Path, Digest>, steps: seq<Step>, p: Path)
    requires Chained(view, steps) && FirstOn(steps, p).Some?
    ensures Look(view, p) == Sig(FirstOn(steps, p).value.original)
    decreases |steps|
  {
    if p != steps[0].path {
      FirstOriginalIsStart(Set(view, steps[0].path, Sig(steps[0].target)), steps[1..], p);
    }
  }

  // ---------------------------------------------------------------- exact success of apply and rollback

  /** Carrying out the first step turns the condition for the plan into the condition for its rest. */
  lemma ResumableStep(view: map<Path, Digest>, steps: seq<Step>, start: map<Path, Digest>)
    requires steps != [] && Chained(start, steps)
    ensures Resumable(view, steps) <==>
      Fits(Look(view, steps[0].path), steps[0]) && Resumable(Set(view, steps[0].path, Sig(steps[0].target)), steps[1..])
  {
    var s, rest := steps[0], steps[1..];
    var view1 := Set(view, s.path, Sig(s.target));
    if FirstOn(rest, s.path).Some? {
      FirstOriginalIsStart(Set(start, s.path, Sig(s.target)), rest, s.path);
    }
    if Resumable(view, steps) {
      assert FirstOn(steps, s.path) == Some(s);
      forall p | FirstOn(rest, p).Some? ensures Fits(Look(view1, p), FirstOn(rest, p).value) {
        assert FirstOn(steps, p).Some?;
      }
    }
    if Fits(Look(view, s.path), s) && Resumable(view1, rest) {
      forall p | FirstOn(steps, p).Some? ensures Fits(Look(view, p), FirstOn(steps, p).value) {}
    }
  }

  lemma RecoverableStep(view: map<Path, Digest>, steps: seq<Step>, start: map<Path, Digest>)
    requires steps != [] && Chained(start, steps)
    ensures var k := |steps| - 1; var s := steps[k];
      Recoverable(view, steps) <==>
          Fits(Look(view, s.path), s) && Recoverable(Set(view, s.path, Sig(s.original)), steps[..k])
  {
    var k := |steps| - 1;
    var s, rest := steps[k], steps[..k];
    var view1 := Set(view, s.path, Sig(s.original));
    ChainedSnoc(start, steps);
    if LastOn(rest, s.path).Some? {
      ReplayIsLastTarget(start, rest, s.path);
    }
    if Recoverable(view, steps) {
      assert LastOn(steps, s.path) == Some(s);
      forall p | LastOn(rest, p).Some? ensures Fits(Look(view1, p), LastOn(rest, p).value) {
        assert LastOn(steps, p).Some?;
      }
    }
    if Fits(Look(view, s.path), s) && Recoverable(view1, rest) { RecoverableBefore(view, steps); }
  }

  lemma RecoverableBefore(view: map<Path, Digest>, steps: seq<Step>)
    requires steps != []
    requires var k := |steps| - 1; var s := steps[k];
      Fits(Look(view, s.path), s) && Recoverable(Set(view, s.path, Sig(s.original)), steps[..k])
    ensures Recoverable(view, steps)
  {
    var s, rest := steps[|steps| - 1], steps[..|steps| - 1];
    forall p | LastOn(steps, p).Some? ensures Fits(Look(view, p), LastOn(steps, p).value) {
      assert p != s.path ==>
        && LastOn(steps, p) == LastOn(rest, p)
        && Look(Set(view, s.path, Sig(s.original)), p) == Look(view, p);
    }
  }

  /** A planned run succeeds exactly from the resumable workspaces, and then lands on the plan's result. */
  lemma {:induction false} ApplyExact(v: Vault, files: Files, steps: seq<Step>, env: Environment, n: nat,
                                      start: map<Path, Digest>)
    requires Quiet(env) && SoundSteps(v, steps) && Chained(start, steps)
    ensures var run := ApplyUnder(v, files, steps, env, n);
      && (run.error.None? <==> Resumable(View(v.hash, files), steps))
      && (run.error.None? ==> Overlaid(View(v.hash, run.files), steps, Replay(start, steps), View(v.hash, files)))
    decreases |steps|
  {
    if steps != [] {
      var s, rest := steps[0], steps[1..];
      ApplyStepMeans(v, files, s);
      ResumableStep(View(v.hash, files), steps, start);
      var r := ApplyStep(v, files, s);
      if r.error.None? {
        ApplyExact(v, r.files, rest, env, n + 1, Set(start, s.path, Sig(s.target)));
        var run := ApplyUnder(v, r.files, rest, env, n + 1);
        if run.error.None? {
          OverlaidStep(View(v.hash, run.files), steps, start, View(v.hash, files));
        }
      }
    }
  }

  lemma OverlaidStep(out: map<Path, Digest>, steps: seq<Step>, start: map<Path, Digest>, view: map<Path, Digest>)
    requires steps != []
    requires var s := steps[0]; Overlaid(out, steps[1..], Replay(start, steps), Set(view, s.path, Sig(s.target)))
    ensures Overlaid(out, steps, Replay(start, steps), view)
  {
    var s, rest := steps[0], steps[1..];
    assert steps == [s] + rest;
    forall p ensures Look(out, p) == if LastOn(steps, p).Some? then Look(Replay(start, steps), p) else Look(view, p) {
      LastOne(s, p);
      LastConcat([s], rest, p);
      if LastOn(rest, p).None? {
        EndsExist(rest, p);
        ReplayElsewhere(Set(start, s.path, Sig(s.target)), rest, p);
      }
    }
  }

  /** A rollback succeeds exactly from the recoverable workspaces, and then restores the planned paths. */
  lemma {:induction false} RollbackExact(v: Vault, files: Files, steps: seq<Step>, env: Environment, n: nat,
                                         start: map<Path, Digest>)
    requires Quiet(env) && SoundSteps(v, steps) && Chained(start, steps)
    ensures var run := RollbackUnder(v, files, steps, env, n);
      && (run.error.None? <==> Recoverable(View(v.hash, files), steps))
      && (run.error.None? ==> Overlaid(View(v.hash, run.files), steps, start, View(v.hash, files)))
    decreases |steps|
  {
    if steps != [] {
      var k := |steps| - 1;
      var s, rest := steps[k], steps[..k];
      ChainedSnoc(start, steps);
      RollbackStepMeans(v, files, s);
      RecoverableStep(View(v.hash, files), steps, start);
      var r := RollbackStep(v, files, s);
      if r.error.None? {
        RollbackExact(v, r.files, rest, env, n + 1, start);
        var run := RollbackUnder(v, r.files, rest, env, n + 1);
        if run.error.None? {
          OverlaidBackStep(View(v.hash, run.files), steps, start, View(v.hash, files));
        }
      }
    }
  }

  lemma OverlaidBackStep(out: map<Path, Digest>, steps: seq<Step>, start: map<Path, Digest>, view: map<Path, Digest>)
    requires steps != [] && Chained(start, steps)
    requires var s := steps[|steps| - 1]; Overlaid(out, steps[..|steps| - 1], start, Set(view, s.path, Sig(s.original)))
    ensures Overlaid(out, steps, start, view)
  {
    var s, rest := steps[|steps| - 1], steps[..|steps| - 1];
    ChainedSnoc(start, steps);
    if LastOn(rest, s.path).None? {
      EndsExist(rest, s.path);
      ReplayElsewhere(start, rest, s.path);
    }
  }
}
