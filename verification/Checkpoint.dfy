/**
 Checkpoint restore: recorded change sets become compare-before-write steps,
 the steps are rehearsed on a virtual workspace, applied, and rolled back after a crash.
 */
module Checkpoint {
  import opened Results
  import opened Artifacts
  import opened Changes
  import opened Paths

  datatype FileState = FileState(present: bool, sha: Option<Digest>, blob: Option<Digest>)

  const ABSENT := FileState(false, None, None)

  predicate StatesEqual(left: FileState, right: FileState) {
    left.present == right.present && (!left.present || left.sha == right.sha)
  }

  datatype Step = Step(turnId: string, path: Path, original: FileState, target: FileState)

  datatype Code =
    | PathUnsafe | ArtifactMissing | ArtifactMismatch | ArtifactUnavailable
    | ChangeUnsupported | FileConflict | RecoveryConflict | PlanCorrupt

  datatype CheckpointError = CheckpointError(code: Code, path: Option<Path>)

  datatype Blocker =
    | IncompleteChanges(turnId: string)
    | BadChange(error: CheckpointError, turnId: string)
    | AliasedPath(path: Path)
    | NestedPath(path: Path, child: Path)
    | Conflict(path: Path, turnId: string)

  datatype Plan = Plan(steps: seq<Step>, affected: seq<Path>, blockers: seq<Blocker>)

  // ---------------------------------------------------------------- single steps

  function Inspect(v: Vault, files: Files, p: Path): FileState {
    if p in files then FileState(true, Some(v.hash(files[p])), None) else ABSENT
  }

  function WriteState(v: Vault, files: Files, p: Path, state: FileState): Result<Files, CheckpointError> {
    if !state.present then Ok(files - {p})
    else if state.blob.None? || state.sha.None? then Err(CheckpointError(PlanCorrupt, Some(p)))
    else match Read(v, state.blob.value)
      case Err(_) => Err(CheckpointError(ArtifactUnavailable, Some(p)))
      case Ok(data) =>
        if v.hash(data) != state.sha.value then Err(CheckpointError(ArtifactMismatch, Some(p)))
        else Ok(files[p := data])
  }

  /** Where a run of steps left the workspace, and the error that stopped it, if any. */
  datatype Run = Run(files: Files, error: Option<CheckpointError>)

  function Written(files: Files, r: Result<Files, CheckpointError>): Run {
    match r
    case Ok(f) => Run(f, None)
    case Err(e) => Run(files, Some(e))
  }

  function ApplyStep(v: Vault, files: Files, s: Step): Run {
    var current := Inspect(v, files, s.path);
    if StatesEqual(current, s.target) then Run(files, None)
    else if !StatesEqual(current, s.original) then Run(files, Some(CheckpointError(FileConflict, Some(s.path))))
    else Written(files, WriteState(v, files, s.path, s.target))
  }

  function RollbackStep(v: Vault, files: Files, s: Step): Run {
    var current := Inspect(v, files, s.path);
    if StatesEqual(current, s.original) then Run(files, None)
    else if !StatesEqual(current, s.target) then Run(files, Some(CheckpointError(RecoveryConflict, Some(s.path))))
    else Written(files, WriteState(v, files, s.path, s.original))
  }

  /** What other processes do to the workspace just before step `n` of a run is reached. */
  type Environment = (nat, Files) -> Files

  /** The steps in order; the first one that fails ends the run where it stands. */
  function ApplyUnder(v: Vault, files: Files, steps: seq<Step>, env: Environment, n: nat): Run
    decreases |steps|
  {
    if steps == [] then Run(files, None)
    else
      var r := ApplyStep(v, env(n, files), steps[0]);
      if r.error.Some? then r else ApplyUnder(v, r.files, steps[1..], env, n + 1)
  }

  /** The steps from the last to the first. */
  function RollbackUnder(v: Vault, files: Files, steps: seq<Step>, env: Environment, n: nat): Run
    decreases |steps|
  {
    if steps == [] then Run(files, None)
    else
      var r := RollbackStep(v, env(n, files), steps[|steps| - 1]);
      if r.error.Some? then r else RollbackUnder(v, r.files, steps[..|steps| - 1], env, n + 1)
  }

  /** The paths a completed rollback really wrote. */
  function RolledBack(v: Vault, files: Files, steps: seq<Step>, env: Environment, n: nat): set<Path>
    decreases |steps|
  {
    if steps == [] then {}
    else
      var s := steps[|steps| - 1];
      var seen := env(n, files);
      var r := RollbackStep(v, seen, s);
      if r.error.Some? then {}
      else
        (if StatesEqual(Inspect(v, seen, s.path), s.original) then {} else {s.path})
        + RolledBack(v, r.files, steps[..|steps| - 1], env, n + 1)
  }

  // ---------------------------------------------------------------- from changes to steps

  function PersistedState(v: Vault, present: bool, sha: Option<Digest>, blob: Option<Digest>, path: Path)
    : Result<FileState, CheckpointError>
  {
    if !present then Ok(ABSENT)
    else if sha.None? || blob.None? then
      Err(CheckpointError(ArtifactMissing, Some(path)))
    else if sha != blob then Err(CheckpointError(ArtifactMismatch, Some(path)))
    else if Read(v, blob.value).Err? then Err(CheckpointError(ArtifactUnavailable, Some(path)))
    else Ok(FileState(true, sha, blob))
  }

  function StepsForChange(v: Vault, turnId: string, c: Change): Result<seq<Step>, CheckpointError> {
    if c.path.None? then Err(CheckpointError(PathUnsafe, None))
    else
      var path := c.path.value;
      var before := PersistedState(v, !c.kind.Created?, c.beforeSha, c.beforeBlob, path);
      if before.Err? then Err(before.error)
      else
        var after := PersistedState(v, !c.kind.Deleted?, c.afterSha, c.afterBlob, path);
        if after.Err? then Err(after.error)
        else if c.kind.Created? || c.kind.Modified? || c.kind.Deleted? then
          Ok([Step(turnId, path, after.value, before.value)])
        else if c.kind.Renamed? then
          if c.oldPath.None? then Err(CheckpointError(PathUnsafe, None))
          else Ok([Step(turnId, path, after.value, ABSENT), Step(turnId, c.oldPath.value, ABSENT, before.value)])
        else Err(CheckpointError(ChangeUnsupported, Some(path)))
  }

  function RowSteps(v: Vault, turnId: string, rows: seq<Change>): seq<Step> {
    if rows == [] then []
    else
      var earlier := RowSteps(v, turnId, rows[..|rows| - 1]);
      var last := StepsForChange(v, turnId, rows[|rows| - 1]);
      if last.Ok? then earlier + last.value else earlier
  }

  function RowBlockers(v: Vault, turnId: string, rows: seq<Change>): seq<Blocker> {
    if rows == [] then []
    else
      var earlier := RowBlockers(v, turnId, rows[..|rows| - 1]);
      var last := StepsForChange(v, turnId, rows[|rows| - 1]);
      if last.Ok? then earlier else earlier + [BadChange(last.error, turnId)]
  }

  function PlanSteps(v: Vault, sets: seq<ChangeSet>): seq<Step> {
    if sets == [] then []
    else
      var earlier := PlanSteps(v, sets[..|sets| - 1]);
      var cs := sets[|sets| - 1];
      if cs.complete then earlier + RowSteps(v, cs.turnId, cs.files) else earlier
  }

  function ChangeBlockers(v: Vault, sets: seq<ChangeSet>): seq<Blocker> {
    if sets == [] then []
    else
      var earlier := ChangeBlockers(v, sets[..|sets| - 1]);
      var cs := sets[|sets| - 1];
      earlier + if cs.complete then RowBlockers(v, cs.turnId, cs.files) else [IncompleteChanges(cs.turnId)]
  }

  // ---------------------------------------------------------------- planning vocabulary

  function PathsOf(steps: seq<Step>): set<Path> {
    set s | s in steps :: s.path
  }

  /** The first step of the plan on a path. */
  function FirstOn(steps: seq<Step>, p: Path): Option<Step> {
    if steps == [] then None
    else if steps[0].path == p then Some(steps[0])
    else FirstOn(steps[1..], p)
  }

  /** The last step of the plan on a path. */
  function LastOn(steps: seq<Step>, p: Path): Option<Step> {
    if steps == [] then None
    else if steps[|steps| - 1].path == p then Some(steps[|steps| - 1])
    else LastOn(steps[..|steps| - 1], p)
  }

  datatype Action = Keep | Create | Modify | Delete

  function ActionBetween(before: FileState, after: FileState): Action {
    if StatesEqual(before, after) then Keep
    else if !before.present && after.present then Create
    else if before.present && !after.present then Delete
    else Modify
  }

  /** The user-visible action on a path: from the original of its first step to the target of its last. */
  function PlannedAction(steps: seq<Step>, p: Path): Action {
    var first, last := FirstOn(steps, p), LastOn(steps, p);
    if first.None? || last.None? then Keep else ActionBetween(first.value.original, last.value.target)
  }

  function OfKind(steps: seq<Step>, k: Action): set<Path> {
    set p | p in PathsOf(steps) && PlannedAction(steps, p) == k
  }

  /** Every planned path is at the target of its last step. */
  ghost predicate AllAtTarget(v: Vault, files: Files, steps: seq<Step>) {
    forall p :: LastOn(steps, p).Some? ==> StatesEqual(Inspect(v, files, p), LastOn(steps, p).value.target)
  }

  /** Paths that the file system would confuse, or that would have to be file and directory at once. */
  ghost predicate IsCollision(b: Blocker, paths: set<Path>, normcase: Path -> Path) {
    match b
    case AliasedPath(p) => p in paths && exists q :: q in paths && Before(q, p) && normcase(q) == normcase(p)
    case NestedPath(p, c) => p in paths && c in paths && Nested(p, c)
    case _ => false
  }

  ghost predicate CollisionFreePaths(paths: set<Path>, normcase: Path -> Path) {
    && (forall p, q :: p in paths && q in paths && normcase(p) == normcase(q) ==> p == q)
    && (forall p, q :: p in paths && q in paths ==> !Nested(p, q))
  }

  /** The virtual workspace of the rehearsal: a step that conflicts leaves it alone. */
  function Rehearsed(v: Vault, files: Files, steps: seq<Step>): map<Path, FileState> {
    if steps == [] then map[]
    else
      var n := |steps| - 1;
      var rehearsed := Rehearsed(v, files, steps[..n]);
      if StatesEqual(Current(v, files, rehearsed, steps[n].path), steps[n].original) then
        rehearsed[steps[n].path := steps[n].target]
      else rehearsed
  }

  function Current(v: Vault, files: Files, rehearsed: map<Path, FileState>, p: Path): FileState {
    if p in rehearsed then rehearsed[p] else Inspect(v, files, p)
  }

  function StepBlockers(v: Vault, files: Files, steps: seq<Step>): seq<Blocker> {
    if steps == [] then []
    else
      var n := |steps| - 1;
      var s := steps[n];
      var earlier := StepBlockers(v, files, steps[..n]);
      if StatesEqual(Current(v, files, Rehearsed(v, files, steps[..n]), s.path), s.original) then earlier
      else earlier + [Conflict(s.path, s.turnId)]
  }
}
