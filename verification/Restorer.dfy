/** The restorer object: the source's loops, proved against the functions of module Checkpoint. */
module Restorer {
  import opened Results
  import opened Artifacts
  import opened Changes
  import opened Checkpoint
  import opened CheckpointLaws
  import opened Paths

  /** What is left of a rollback once the steps from `k` on are back and `touched` was written. */
  ghost predicate RollbackLeft(
    v: Vault, run: Run, all: set<Path>, touched: set<Path>, files: Files, steps: seq<Step>, k: nat, env: Environment,
    n: nat)
    requires k <= |steps|
  {
    && run == RollbackUnder(v, files, steps[..k], env, n)
    && all == touched + RolledBack(v, files, steps[..k], env, n)
  }

  /** One turn of the rollback loop: the last step that is left. */
  lemma RollbackTurn(
    v: Vault, run: Run, all: set<Path>, touched: set<Path>, files: Files, steps: seq<Step>, k: nat, env: Environment,
    n: nat)
    requires k < |steps| && RollbackLeft(v, run, all, touched, files, steps, k + 1, env, n)
    ensures var once := RollbackStep(v, env(n, files), steps[k]);
      if once.error.Some? then run == once
      else if StatesEqual(Inspect(v, env(n, files), steps[k].path), steps[k].original) then
        RollbackLeft(v, run, all, touched, once.files, steps, k, env, n + 1)
      else RollbackLeft(v, run, all, touched + {steps[k].path}, once.files, steps, k, env, n + 1)
  {
    var left := steps[..k + 1];
    assert left[k] == steps[k] && left[..k] == steps[..k];
  }

  class WorkspaceCheckpointRestorer {
    const artifacts: ArtifactStore
    const normcase: Path -> Path
    var files: Files

    constructor (artifacts: ArtifactStore, normcase: Path -> Path, files: Files)
      ensures this.artifacts == artifacts && this.normcase == normcase && this.files == files
    {
      this.artifacts := artifacts;
      this.normcase := normcase;
      this.files := files;
    }

    /**
     Incomplete or unusable change sets block; so do colliding paths; only an otherwise clean
     plan is rehearsed against the workspace.
     */
    method BuildPlan(sets: seq<ChangeSet>) returns (plan: Plan)
      ensures plan.steps == PlanSteps(artifacts.vault, sets)
      ensures StrictlySorted(plan.affected) && forall p :: p in plan.affected <==> p in PathsOf(plan.steps)
      ensures if ChangeBlockers(artifacts.vault, sets) == [] && CollisionFreePaths(PathsOf(plan.steps), normcase) then
          plan.blockers == StepBlockers(artifacts.vault, files, plan.steps)
        else
          exists collisions :: plan.blockers == ChangeBlockers(artifacts.vault, sets) + collisions
            && forall b :: b in collisions <==> IsCollision(b, PathsOf(plan.steps), normcase)
    {
      var steps, blockers := [], [];
      for i := 0 to |sets|
        invariant steps == PlanSteps(artifacts.vault, sets[..i])
        invariant blockers == ChangeBlockers(artifacts.vault, sets[..i])
      {
        var cs := sets[i];
        assert sets[..i + 1][..i] == sets[..i];
        if !cs.complete {
          blockers := blockers + [IncompleteChanges(cs.turnId)];
          continue;
        }
        var made, bad := PlanTurn(cs);
        steps, blockers := steps + made, blockers + bad;
      }
      assert sets[..|sets|] == sets;
      var collisions := PathCollisionBlockers(steps);
      NoCollisions(PathsOf(steps), normcase, collisions);
      blockers := blockers + collisions;
      if blockers == [] {
        var conflicts := ValidatePlan(steps);
        blockers := blockers + conflicts;
      }
      var affected := Sorted(set s | s in steps :: s.path);
      plan := Plan(steps, affected, blockers);
    }

    /** The inner loop of the plan: the rows of one complete change set. */
    method PlanTurn(cs: ChangeSet) returns (steps: seq<Step>, blockers: seq<Blocker>)
      ensures steps == RowSteps(artifacts.vault, cs.turnId, cs.files)
      ensures blockers == RowBlockers(artifacts.vault, cs.turnId, cs.files)
    {
      steps, blockers := [], [];
      for k := 0 to |cs.files|
        invariant steps == RowSteps(artifacts.vault, cs.turnId, cs.files[..k])
        invariant blockers == RowBlockers(artifacts.vault, cs.turnId, cs.files[..k])
      {
        assert cs.files[..k + 1][..k] == cs.files[..k];
        var made := StepsForChange(artifacts.vault, cs.turnId, cs.files[k]);
        if made.Ok? {
          steps := steps + made.value;
        } else {
          blockers := blockers + [BadChange(made.error, cs.turnId)];
        }
      }
      assert cs.files[..|cs.files|] == cs.files;
    }

    method PathCollisionBlockers(steps: seq<Step>) returns (blockers: seq<Blocker>)
      ensures forall b :: b in blockers <==> IsCollision(b, PathsOf(steps), normcase)
    {
      var paths := Sorted(set s | s in steps :: s.path);
      var aliases := AliasBlockers(paths, normcase);
      AliasesMean(paths, normcase, PathsOf(steps), |paths|);
      assert paths[..|paths|] == paths;
      var nested := NestingBlockers(paths, PathsOf(steps));
      blockers := aliases + nested;
    }

    method NestingBlockers(paths: seq<Path>, ghost all: set<Path>) returns (blockers: seq<Blocker>)
      requires StrictlySorted(paths) && forall p :: p in paths <==> p in all
      ensures forall b :: b in blockers <==> b.NestedPath? && IsCollision(b, all, normcase)
    {
      blockers := [];
      for i := 0 to |paths|
        invariant forall x, y :: 0 <= x < i && x < y < |paths| ==> NestingSeen(blockers, paths[x], paths[y])
        invariant forall b :: b in blockers ==> b.NestedPath? && IsCollision(b, all, normcase)
      {
        for j := i + 1 to |paths|
          invariant forall x, y :: 0 <= x < i && x < y < |paths| ==> NestingSeen(blockers, paths[x], paths[y])
          invariant forall y :: i < y < j ==> NestingSeen(blockers, paths[i], paths[y])
          invariant forall b :: b in blockers ==> b.NestedPath? && IsCollision(b, all, normcase)
        {
          if Nested(paths[i], paths[j]) {
            blockers := blockers + [NestedPath(paths[i], paths[j])];
          }
        }
      }
      forall p, c | p in all && c in all && Nested(p, c) ensures NestedPath(p, c) in blockers {
        var x :| 0 <= x < |paths| && paths[x] == p;
        var y :| 0 <= y < |paths| && paths[y] == c;
        NestedSortsLater(p, c);
        BeforeIrreflexive(p);
        if y < x { BeforeTransitive(p, c, p); }
        assert NestingSeen(blockers, paths[x], paths[y]);
      }
    }

    method ValidatePlan(steps: seq<Step>) returns (blockers: seq<Blocker>)
      ensures blockers == StepBlockers(artifacts.vault, files, steps)
    {
      var rehearsed: map<Path, FileState> := map[];
      blockers := [];
      for i := 0 to |steps|
        invariant rehearsed == Rehearsed(artifacts.vault, files, steps[..i])
        invariant blockers == StepBlockers(artifacts.vault, files, steps[..i])
      {
        var s := steps[i];
        assert steps[..i + 1][..i] == steps[..i];
        var current := if s.path in rehearsed then rehearsed[s.path] else Inspect(artifacts.vault, files, s.path);
        if !StatesEqual(current, s.original) {
          blockers := blockers + [Conflict(s.path, s.turnId)];
          continue;
        }
        rehearsed := rehearsed[s.path := s.target];
      }
      assert steps[..|steps|] == steps;
    }

    /**
     Every step either finds the file already at its target, or replaces exactly the recorded
     original; anything else stops the run. `env` is what other processes do in between.
     */
    method Apply(steps: seq<Step>, env: Environment) returns (r: Result<nat, CheckpointError>)
      modifies this`files
      ensures var run := ApplyUnder(artifacts.vault, old(files), steps, env, 0);
        files == run.files && r == if run.error.Some? then Err(run.error.value) else Ok(|PathsOf(steps)|)
    {
      ghost var run := ApplyUnder(artifacts.vault, files, steps, env, 0);
      for i := 0 to |steps|
        invariant run == ApplyUnder(artifacts.vault, files, steps[i..], env, i)
      {
        assert steps[i..][1..] == steps[i + 1..];
        files := env(i, files);
        var s := steps[i];
        var current := Inspect(artifacts.vault, files, s.path);
        if StatesEqual(current, s.target) {
          continue;
        }
        if !StatesEqual(current, s.original) {
          return Err(CheckpointError(FileConflict, Some(s.path)));
        }
        var written := WriteState(artifacts.vault, files, s.path, s.target);
        if written.Err? {
          return Err(written.error);
        }
        files := written.value;
      }
      r := Ok(|set s | s in steps :: s.path|);
    }

    method Rollback(steps: seq<Step>, env: Environment) returns (r: Result<nat, CheckpointError>)
      modifies this`files
      ensures var run := RollbackUnder(artifacts.vault, old(files), steps, env, 0);
        files == run.files && (run.error.Some? <==> r.Err?) && (r.Err? ==> r.error == run.error.value)
      ensures r.Ok? ==> r.value == |RolledBack(artifacts.vault, old(files), steps, env, 0)|
    {
      var v := artifacts.vault;
      assert steps[..|steps|] == steps;
      ghost var run, all := RollbackUnder(v, files, steps, env, 0), RolledBack(v, files, steps, env, 0);
      var touched: set<Path> := {};
      for k := |steps| downto 0
        invariant RollbackLeft(v, run, all, touched, files, steps, k, env, |steps| - k)
      {
        var i := |steps| - 1 - k;
        RollbackTurn(v, run, all, touched, files, steps, k, env, i);
        files := env(i, files);
        var s := steps[k];
        var current := Inspect(v, files, s.path);
        if StatesEqual(current, s.original) {
          continue;
        }
        if !StatesEqual(current, s.target) {
          return Err(CheckpointError(RecoveryConflict, Some(s.path)));
        }
        var written := WriteState(v, files, s.path, s.original);
        if written.Err? {
          return Err(written.error);
        }
        files := written.value;
        touched := touched + {s.path};
      }
      r := Ok(|touched|);
    }

    /** Accepts exactly when every planned path is at the target of its last step. */
    method VerifyApplied(steps: seq<Step>) returns (error: Option<CheckpointError>)
      ensures error.None? <==> AllAtTarget(artifacts.vault, files, steps)
      ensures error.Some? ==> exists p ::
        && error.value == CheckpointError(FileConflict, Some(p)) && LastOn(steps, p).Some?
        && !StatesEqual(Inspect(artifacts.vault, files, p), LastOn(steps, p).value.target)
    {
      var initial, final := EndSteps(steps);
      var todo := final.Keys;
      while todo != {}
        invariant todo <= final.Keys
        invariant forall p :: p in final.Keys - todo ==>
          StatesEqual(Inspect(artifacts.vault, files, p), final[p].target)
        decreases |todo|
      {
        var p :| p in todo;
        if !StatesEqual(Inspect(artifacts.vault, files, p), final[p].target) {
          return Some(CheckpointError(FileConflict, Some(p)));
        }
        todo := todo - {p};
      }
      error := None;
    }
  }

  ghost predicate NestingSeen(blockers: seq<Blocker>, p: Path, child: Path) {
    Nested(p, child) ==> NestedPath(p, child) in blockers
  }

  /** An earlier path has the same normalised case. */
  ghost predicate SharesKey(paths: seq<Path>, normcase: Path -> Path, i: nat)
    requires i < |paths|
  {
    exists j :: 0 <= j < i && normcase(paths[j]) == normcase(paths[i])
  }

  ghost function AliasesUpTo(paths: seq<Path>, normcase: Path -> Path, n: nat): seq<Blocker>
    requires n <= |paths|
  {
    if n == 0 then []
    else
      var earlier := AliasesUpTo(paths, normcase, n - 1);
      if SharesKey(paths, normcase, n - 1) then earlier + [AliasedPath(paths[n - 1])] else earlier
  }

  /** The dictionary of the alias pass: one already visited path for every key met so far. */
  ghost predicate SeenSoFar(paths: seq<Path>, normcase: Path -> Path, seen: map<Path, Path>, i: nat)
    requires i <= |paths|
  {
    && (forall k :: k in seen ==> seen[k] in paths[..i] && normcase(seen[k]) == k)
    && (forall j :: 0 <= j < i ==> normcase(paths[j]) in seen)
  }

  lemma SeenMeans(paths: seq<Path>, normcase: Path -> Path, seen: map<Path, Path>, i: nat)
    requires StrictlySorted(paths) && i < |paths| && SeenSoFar(paths, normcase, seen, i)
    ensures normcase(paths[i]) in seen <==> SharesKey(paths, normcase, i)
    ensures normcase(paths[i]) in seen ==> seen[normcase(paths[i])] != paths[i]
  {
    BeforeIrreflexive(paths[i]);
    if normcase(paths[i]) in seen {
      var j :| 0 <= j < i && paths[j] == seen[normcase(paths[i])];
    }
  }

  function SeenWith(seen: map<Path, Path>, key: Path, p: Path): map<Path, Path> {
    if key in seen then seen else seen[key := p]
  }

  lemma SeenMore(paths: seq<Path>, normcase: Path -> Path, seen: map<Path, Path>, i: nat)
    requires i < |paths| && SeenSoFar(paths, normcase, seen, i)
    ensures SeenSoFar(paths, normcase, SeenWith(seen, normcase(paths[i]), paths[i]), i + 1)
  {
    assert paths[..i + 1] == paths[..i] + [paths[i]];
  }

  /** One round of the alias pass. */
  lemma AliasStep(paths: seq<Path>, normcase: Path -> Path, seen: map<Path, Path>, i: nat)
    requires StrictlySorted(paths) && i < |paths| && SeenSoFar(paths, normcase, seen, i)
    ensures var p, key := paths[i], normcase(paths[i]);
      var aliased := key in seen && seen[key] != p;
      && AliasesUpTo(paths, normcase, i + 1) ==
           AliasesUpTo(paths, normcase, i) + (if aliased then [AliasedPath(p)] else [])
      && SeenWith(seen, key, p) == if aliased then seen else seen[key := p]
  {
    SeenMeans(paths, normcase, seen, i);
  }

  method AliasBlockers(paths: seq<Path>, normcase: Path -> Path) returns (blockers: seq<Blocker>)
    requires StrictlySorted(paths)
    ensures blockers == AliasesUpTo(paths, normcase, |paths|)
  {
    var seen: map<Path, Path> := map[];
    blockers := [];
    for i := 0 to |paths|
      invariant SeenSoFar(paths, normcase, seen, i)
      invariant blockers == AliasesUpTo(paths, normcase, i)
    {
      var key := normcase(paths[i]);
      SeenMore(paths, normcase, seen, i);
      AliasStep(paths, normcase, seen, i);
      if key in seen && seen[key] != paths[i] {
        blockers := blockers + [AliasedPath(paths[i])];
      } else {
        seen := seen[key := paths[i]];
      }
    }
  }

  lemma {:induction false} AliasesMean(paths: seq<Path>, normcase: Path -> Path, all: set<Path>, n: nat)
    requires StrictlySorted(paths) && (forall p :: p in paths <==> p in all) && n <= |paths|
    ensures forall b :: b in AliasesUpTo(paths, normcase, n) <==>
      b.AliasedPath? && b.path in paths[..n] && IsCollision(b, all, normcase)
  {
    if n > 0 {
      AliasesMean(paths, normcase, all, n - 1);
      var p := paths[n - 1];
      assert paths[..n] == paths[..n - 1] + [p];
      if q :| q in all && Before(q, p) && normcase(q) == normcase(p) {
        var j :| 0 <= j < |paths| && paths[j] == q;
        BeforeIrreflexive(q);
        if n - 1 < j { BeforeTransitive(q, p, q); }
        assert SharesKey(paths, normcase, n - 1);
      }
    }
  }

  /** Collapses the steps into one action per path and counts the actions. */
  method SummarizeActions(steps: seq<Step>) returns (created: nat, modified: nat, deleted: nat)
    ensures created == |OfKind(steps, Create)|
    ensures modified == |OfKind(steps, Modify)|
    ensures deleted == |OfKind(steps, Delete)|
  {
    var initial, final := EndSteps(steps);
    EndKeys(initial, final, steps);
    created, modified, deleted := CountActions(initial, final, Kinds(steps));
    assert forall k :: Among(Kinds(steps), Kinds(steps).Keys, k) == OfKind(steps, k);
  }

  /** The dictionary holds the first step on every planned path, and nothing else. */
  ghost predicate HoldsFirst(m: map<Path, Step>, steps: seq<Step>) {
    forall p :: (if p in m then Some(m[p]) else None) == FirstOn(steps, p)
  }

  ghost predicate HoldsLast(m: map<Path, Step>, steps: seq<Step>) {
    forall p :: (if p in m then Some(m[p]) else None) == LastOn(steps, p)
  }

  lemma EndsGrow(initial: map<Path, Step>, final: map<Path, Step>, steps: seq<Step>, s: Step)
    requires HoldsFirst(initial, steps) && HoldsLast(final, steps)
    ensures HoldsFirst(if s.path in initial then initial else initial[s.path := s], steps + [s])
    ensures HoldsLast(final[s.path := s], steps + [s])
  {
    forall p
      ensures FirstOn(steps + [s], p) ==
        if FirstOn(steps, p).Some? then FirstOn(steps, p) else if s.path == p then Some(s) else None {
      FirstConcat(steps, [s], p);
      LastOne(s, p);
    }
    forall p ensures LastOn(steps + [s], p) == if s.path == p then Some(s) else LastOn(steps, p) {
      LastConcat(steps, [s], p);
      LastOne(s, p);
    }
  }

  lemma EndKeys(initial: map<Path, Step>, final: map<Path, Step>, steps: seq<Step>)
    requires HoldsFirst(initial, steps) && HoldsLast(final, steps)
    ensures initial.Keys == final.Keys == PathsOf(steps)
    ensures forall p :: p in final ==> PlannedAction(steps, p) == ActionBetween(initial[p].original, final[p].target)
  {
    forall p ensures (p in initial <==> p in PathsOf(steps)) && (p in final <==> p in PathsOf(steps)) {
      EndsExist(steps, p);
    }
    forall p | p in final ensures initial[p] == FirstOn(steps, p).value && final[p] == LastOn(steps, p).value {}
  }

  method EndSteps(steps: seq<Step>) returns (initial: map<Path, Step>, final: map<Path, Step>)
    ensures HoldsFirst(initial, steps) && HoldsLast(final, steps)
  {
    initial, final := map[], map[];
    for k := 0 to |steps|
      invariant HoldsFirst(initial, steps[..k])
      invariant HoldsLast(final, steps[..k])
    {
      var s := steps[k];
      assert steps[..k + 1] == steps[..k] + [s];
      EndsGrow(initial, final, steps[..k], s);
      if s.path !in initial {
        initial := initial[s.path := s];
      }
      final := final[s.path := s];
    }
    assert steps[..|steps|] == steps;
  }

  method CountActions<P(==)>(initial: map<P, Step>, final: map<P, Step>, ghost kinds: map<P, Action>)
    returns (created: nat, modified: nat, deleted: nat)
    requires initial.Keys == final.Keys == kinds.Keys
    requires forall p :: p in final ==> kinds[p] == ActionBetween(initial[p].original, final[p].target)
    ensures Counted(kinds, kinds.Keys, created, modified, deleted)
  {
    created, modified, deleted := 0, 0, 0;
    var todo := final.Keys;
    while todo != {}
      invariant todo <= kinds.Keys
      invariant Counted(kinds, kinds.Keys - todo, created, modified, deleted)
      decreases |todo|
    {
      var p :| p in todo;
      CountsGrow(kinds, kinds.Keys - todo, p, created, modified, deleted);
      assert kinds.Keys - (todo - {p}) == kinds.Keys - todo + {p};
      todo := todo - {p};
      var before, after := initial[p].original, final[p].target;
      if StatesEqual(before, after) {
        continue;
      }
      if !before.present && after.present {
        created := created + 1;
      } else if before.present && !after.present {
        deleted := deleted + 1;
      } else {
        modified := modified + 1;
      }
    }
    assert kinds.Keys - todo == kinds.Keys;
  }

  ghost function Kinds(steps: seq<Step>): map<Path, Action> {
    map p | p in PathsOf(steps) :: PlannedAction(steps, p)
  }

  ghost function Among<P>(kinds: map<P, Action>, done: set<P>, k: Action): set<P> {
    set p | p in done && p in kinds && kinds[p] == k
  }

  ghost predicate Counted<P>(kinds: map<P, Action>, done: set<P>, created: nat, modified: nat, deleted: nat) {
    && created == |Among(kinds, done, Create)|
    && modified == |Among(kinds, done, Modify)|
    && deleted == |Among(kinds, done, Delete)|
  }

  lemma AmongGrows<P>(kinds: map<P, Action>, done: set<P>, p: P, k: Action)
    requires p in kinds && p !in done
    ensures |Among(kinds, done + {p}, k)| == |Among(kinds, done, k)| + if kinds[p] == k then 1 else 0
  {
    if kinds[p] == k {
      assert Among(kinds, done + {p}, k) == Among(kinds, done, k) + {p};
    } else {
      assert Among(kinds, done + {p}, k) == Among(kinds, done, k);
    }
  }

  lemma CountsGrow<P>(kinds: map<P, Action>, done: set<P>, p: P, c: nat, m: nat, d: nat)
    requires p in kinds && p !in done && Counted(kinds, done, c, m, d)
    ensures var a := kinds[p];
      Counted(kinds, done + {p}, c + if a == Create then 1 else 0,
              m + if a == Modify then 1 else 0, d + if a == Delete then 1 else 0)
  {
    AmongGrows(kinds, done, p, Create);
    AmongGrows(kinds, done, p, Modify);
    AmongGrows(kinds, done, p, Delete);
  }

  lemma NoCollisions(paths: set<Path>, normcase: Path -> Path, blockers: seq<Blocker>)
    requires forall b :: b in blockers <==> IsCollision(b, paths, normcase)
    ensures blockers == [] <==> CollisionFreePaths(paths, normcase)
  {
    if p, q :| p in paths && q in paths && Nested(p, q) {
      assert NestedPath(p, q) in blockers;
    }
    if p, q :| p in paths && q in paths && normcase(p) == normcase(q) && p != q {
      BeforeTotal(p, q);
      assert AliasedPath(p) in blockers || AliasedPath(q) in blockers;
    }
    if blockers != [] {
      assert blockers[0] in blockers;
      if blockers[0].AliasedPath? {
        BeforeIrreflexive(blockers[0].path);
      }
    }
  }
}
