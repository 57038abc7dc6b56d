/** Recorded file changes of one turn, and what it means for a record to be the truth. */
module Changes {
  import opened Results
  import opened Artifacts
  import opened Paths

  type Files = map<Path, Bytes>

  datatype ChangeKind = Created | Modified | Deleted | Renamed | Unsupported

  /** One persisted change row. A path that does not normalise is `None`. */
  datatype Change = Change(
    kind: ChangeKind,
    path: Option<Path>,
    oldPath: Option<Path>,
    beforeSha: Option<Digest>,
    beforeBlob: Option<Digest>,
    afterSha: Option<Digest>,
    afterBlob: Option<Digest>)

  datatype ChangeSet = ChangeSet(turnId: string, complete: bool, files: seq<Change>)

  /** The workspace seen through its digests. */
  function View(hash: Bytes -> Digest, files: Files): (view: map<Path, Digest>)
    ensures view.Keys == files.Keys
  {
    map p | p in files :: hash(files[p])
  }

  function Look(view: map<Path, Digest>, p: Path): Option<Digest> {
    if p in view then Some(view[p]) else None
  }

  function Set(view: map<Path, Digest>, p: Path, sig: Option<Digest>): map<Path, Digest> {
    if sig.Some? then view[p := sig.value] else view - {p}
  }

  /** Every path a row speaks about; a rename speaks about both of its ends. */
  function Names(c: Change): set<Path> {
    (if c.path.Some? then {c.path.value} else {})
    + (if c.kind.Renamed? && c.oldPath.Some? then {c.oldPath.value} else {})
  }

  ghost predicate Snapshot(v: Vault, sha: Option<Digest>, blob: Option<Digest>, state: Option<Digest>) {
    sha == blob == state && state.Some? && Readable(v, state.value)
  }

  /** The row tells the truth about `before` and `after`, and its snapshots can be read back. */
  ghost predicate Faithful(v: Vault, c: Change, before: map<Path, Digest>, after: map<Path, Digest>) {
    && c.path.Some?
    && var p := c.path.value;
    match c.kind
    case Created =>
      Look(before, p) == None && Snapshot(v, c.afterSha, c.afterBlob, Look(after, p))
    case Modified =>
      && Look(before, p) != Look(after, p)
      && Snapshot(v, c.beforeSha, c.beforeBlob, Look(before, p))
      && Snapshot(v, c.afterSha, c.afterBlob, Look(after, p))
    case Deleted =>
      Look(after, p) == None && Snapshot(v, c.beforeSha, c.beforeBlob, Look(before, p))
    case Renamed =>
      && c.oldPath.Some? && c.oldPath.value != p
      && Look(before, p) == None
      && Snapshot(v, c.afterSha, c.afterBlob, Look(after, p))
      && Snapshot(v, c.beforeSha, c.beforeBlob, Look(before, c.oldPath.value))
      && Look(after, c.oldPath.value) == None
    case Unsupported => false
  }

  /**
   The rows are exactly the difference between two workspaces: each row is faithful,
   no path is named twice, and a path is named if and only if it changed.
   */
  ghost predicate Describes(v: Vault, rows: seq<Change>, before: map<Path, Digest>, after: map<Path, Digest>) {
    && (forall i :: 0 <= i < |rows| ==> Faithful(v, rows[i], before, after))
    && (forall i, j :: 0 <= i < j < |rows| ==> Names(rows[i]) !! Names(rows[j]))
    && (forall p :: (exists i :: 0 <= i < |rows| && p in Names(rows[i])) <==> Look(before, p) != Look(after, p))
  }
}
