/** The collector object: its dictionary is changed call by call, as the functions of module Collector say. */
module TurnCollector {
  import opened Results
  import opened Artifacts
  import opened Changes
  import opened Collector
  import opened Paths

  class ToolChangeCollector {
    const hash: Bytes -> Digest
    var files: map<Path, Entry>
    var commandBefore: Option<Files>
    var commandHead: Option<string>
    var complete: bool

    function Now(): State
      reads this
    {
      State(files, commandBefore, commandHead, complete)
    }

    constructor (hash: Bytes -> Digest)
      ensures this.hash == hash && Now() == State(map[], None, None, true)
    {
      this.hash := hash;
      files, commandBefore, commandHead, complete := map[], None, None, true;
    }

    method BeforeExecute(call: Prepared, workspace: Files, scan: Scan, head: Option<string>)
      modifies this
      ensures Now() == BeforeCall(old(Now()), call, workspace, scan, head)
    {
      if call.isCommand && !call.hasError {
        commandBefore, commandHead := Some(scan.files), head;
        if !scan.complete {
          complete := false;
        }
        return;
      }
      if call.isCommand || !call.isWrite || call.hasError || call.rel.None? {
        return;
      }
      var rel := call.rel.value;
      if rel in files {
        return;
      }
      var snapshot := Get(workspace, rel);
      files := files[rel := Entry(snapshot, snapshot, false, None)];
    }

    method AfterExecute(call: Prepared, ok: bool, workspace: Files, scan: Scan, head: Option<string>)
      modifies this
      ensures Now() == AfterCall(hash, old(Now()), call, ok, workspace, scan, head)
    {
      if call.isCommand {
        CaptureCommandChanges(ok, scan, head);
        return;
      }
      if !call.isWrite || !ok || call.rel.None? {
        return;
      }
      var rel := call.rel.value;
      if rel !in files {
        files := files[rel := Entry(None, None, false, None)];
      }
      files := files[rel := files[rel].(after := Get(workspace, rel))];
    }

    /**
     Lists the net changes and files their snapshots. A snapshot that is too large, or over the budget of the turn, is
     left out of its row; one whose stored copy is spoiled is an error.
     */
    method Finalize(store: ArtifactStore) returns (r: Result<seq<Change>, StoreError>)
      requires store.vault.hash == hash
      modifies store
      ensures Grown(old(store.vault), store.vault)
      ensures r.Ok? ==> Reports(store.vault, files, r.value) && KeptBytes(files, r.value) <= MAX_TURN_ARTIFACT_BYTES
      ensures r.Ok? ==> InBudget(files, r.value, store.maxBlobBytes)
      ensures r.Err? ==> exists p ::
        p in files && (Spoiled(store.vault, files[p].before) || Spoiled(store.vault, files[p].after))
    {
      var rows: seq<Change>, used := [], 0;
      var order := Sorted(files.Keys);
      for i := 0 to |order|
        invariant Grown(old(store.vault), store.vault)
        invariant ReportsOf(store.vault, files, rows, order[..i])
        invariant Spent(files, rows, used, store.maxBlobBytes)
      {
        var rel := order[i];
        var e := files[rel];
        var kind := NetType(hash, e);
        TakeMore(order, i);
        if kind.None? {
          NoRow(store.vault, files, rows, order[..i], rel);
          continue;
        }
        ghost var vault, was := store.vault, used;
        var row, error;
        row, used, error := Row(store, rel, e, kind.value, used);
        if error.Some? {
          return Err(error.value);
        }
        MoreRows(vault, store.vault, files, rows, order[..i], rel, row);
        MoreSpent(files, rows, was, store.maxBlobBytes, rel, row, used);
        rows := rows + [row];
      }
      assert order[..|order|] == order;
      r := Ok(rows);
    }

    method Row(store: ArtifactStore, rel: Path, e: Entry, kind: ChangeKind, used: nat)
      returns (row: Change, now: nat, error: Option<StoreError>)
      requires store.vault.hash == hash && NetType(hash, e) == Some(kind) && used <= MAX_TURN_ARTIFACT_BYTES
      modifies store
      ensures Grown(old(store.vault), store.vault)
      ensures error.None? ==>
        && RowOf(store.vault, rel, e, row)
        && RowInBudget(e, row, used, store.maxBlobBytes)
        && now == used + RowBytes(e, row) <= MAX_TURN_ARTIFACT_BYTES
      ensures error.Some? ==> Spoiled(store.vault, e.before) || Spoiled(store.vault, e.after)
    {
      row := Change(kind, Some(rel), e.oldPath, Digested(hash, e.before), None, Digested(hash, e.after), None);
      now := used;
      var blob;
      blob, now, error := Persist(store, e.before, now);
      if error.Some? {
        return;
      }
      row := row.(beforeBlob := blob);
      blob, now, error := Persist(store, e.after, now);
      row := row.(afterBlob := blob);
    }

    /** Files one snapshot, unless it is too large or over the budget. */
    method Persist(store: ArtifactStore, data: Option<Bytes>, used: nat)
      returns (blob: Option<Digest>, now: nat, error: Option<StoreError>)
      requires store.vault.hash == hash && used <= MAX_TURN_ARTIFACT_BYTES
      modifies store
      ensures Grown(old(store.vault), store.vault)
      ensures StoredAs(store.vault, Digested(hash, data), blob)
      ensures now == used + SnapshotBytes(data, blob) <= MAX_TURN_ARTIFACT_BYTES
      ensures error.Some? ==> Spoiled(store.vault, data)
      ensures error.None? ==> LeftOutRightly(data, blob, used, store.maxBlobBytes)
    {
      blob, now, error := None, used, None;
      if data.None? || used + |data.value| > MAX_TURN_ARTIFACT_BYTES {
        return;
      }
      var put := store.Put(data.value);
      if put.Ok? {
        blob, now := Some(put.value), used + |data.value|;
      } else if put.error != TooLarge {
        error := Some(put.error);
      }
    }

    method CaptureCommandChanges(ok: bool, scan: Scan, head: Option<string>)
      modifies this
      ensures old(commandBefore).None? ==> Now() == old(Now()).(complete := false)
      ensures old(commandBefore).Some? ==>
        files == Coalesced(hash, Observed(hash, old(files), old(commandBefore).value, scan.files))
      ensures old(commandBefore).Some? ==> commandBefore == None && commandHead == None
      ensures old(commandBefore).Some? ==>
        complete == (old(complete) && scan.complete && ok && old(commandHead) == head)
    {
      if commandBefore.None? {
        complete := false;
        return;
      }
      var before, after := commandBefore.value, scan.files;
      commandBefore := None;
      if !scan.complete || !ok {
        complete := false;
      }
      if commandHead != head {
        complete := false;
      }
      commandHead := None;
      Observe(before, after);
      CoalesceDetectedRenames();
    }

    method Observe(before: Files, after: Files)
      modifies this`files
      ensures files == Observed(hash, old(files), before, after)
    {
      ghost var files0 := files;
      var todo := before.Keys + after.Keys;
      while todo != {}
        invariant todo <= before.Keys + after.Keys
        invariant HalfObserved(hash, files0, before, after, todo, files)
        decreases |todo|
      {
        var rel :| rel in todo;
        ObserveOne(hash, files0, before, after, todo, files, rel);
        todo := todo - {rel};
        if !Differs(hash, before, after, rel) {
          continue;
        }
        if rel !in files {
          files := files[rel := Entry(Get(before, rel), Get(after, rel), true, None)];
        } else {
          files := files[rel := files[rel].(after := Get(after, rel))];
        }
      }
      AllObserved(hash, files0, before, after, files);
    }

    method CoalesceDetectedRenames()
      modifies this`files
      ensures files == Coalesced(hash, old(files))
    {
      var deleted, created := GroupByContent(files);
      ghost var files0 := files;
      GroupsMean(hash, files, deleted, created);
      var common := deleted.Keys * created.Keys;
      var todo := common;
      NothingMoved(hash, files0, common);
      while todo != {}
        invariant todo <= common
        invariant forall p :: Lookup(files, p) == Partial(hash, files0, todo, p)
        decreases |todo|
      {
        var digest := Pick(todo);
        ghost var todo0 := todo;
        todo := todo - {digest};
        var oldPaths, newPaths := deleted[digest], created[digest];
        if |oldPaths| != 1 || |newPaths| != 1 {
          NotMoved(hash, files0, digest, todo0);
          continue;
        }
        var oldRel :| oldRel in oldPaths;
        var newRel :| newRel in newPaths;
        OneMove(hash, files0, digest, todo0, oldRel, newRel);
        assert Lookup(files, oldRel) == Partial(hash, files0, todo0, oldRel);
        assert Lookup(files, newRel) == Partial(hash, files0, todo0, newRel);
        var oldState := files[oldRel];
        files := files - {oldRel};
        var newState := files[newRel];
        files := files[newRel := newState.(before := oldState.before, oldPath := Some(oldRel))];
      }
      AllMoved(hash, files0);
      SameEntries(files, Coalesced(hash, files0));
    }

    method GroupByContent(entries: map<Path, Entry>)
      returns (deleted: map<Digest, set<Path>>, created: map<Digest, set<Path>>)
      ensures Groups(deleted, hash, entries, entries.Keys, true) && Groups(created, hash, entries, entries.Keys, false)
    {
      deleted, created := map[], map[];
      var todo := entries.Keys;
      while todo != {}
        invariant todo <= entries.Keys
        invariant Groups(deleted, hash, entries, entries.Keys - todo, true)
        invariant Groups(created, hash, entries, entries.Keys - todo, false)
        decreases |todo|
      {
        var rel :| rel in todo;
        GroupGrows(deleted, hash, entries, entries.Keys - todo, true, rel);
        GroupGrows(created, hash, entries, entries.Keys - todo, false, rel);
        assert entries.Keys - (todo - {rel}) == entries.Keys - todo + {rel};
        todo := todo - {rel};
        var e := entries[rel];
        if IsDeletion(e) {
          var d := hash(e.before.value);
          deleted := deleted[d := (if d in deleted then deleted[d] else {}) + {rel}];
        } else if IsCreation(e) {
          var d := hash(e.after.value);
          created := created[d := (if d in created then created[d] else {}) + {rel}];
        }
      }
    }
  }

  const MAX_TURN_ARTIFACT_BYTES: nat := 20 * 1024 * 1024

  function SnapshotBytes(data: Option<Bytes>, blob: Option<Digest>): nat {
    if data.Some? && blob.Some? then |data.value| else 0
  }

  function RowBytes(e: Entry, c: Change): nat {
    SnapshotBytes(e.before, c.beforeBlob) + SnapshotBytes(e.after, c.afterBlob)
  }

  /** The size of all snapshots that the rows keep. */
  function KeptBytes(files: map<Path, Entry>, rows: seq<Change>): nat {
    if rows == [] then 0
    else
      var c := rows[|rows| - 1];
      KeptBytes(files, rows[..|rows| - 1])
          + if c.path.Some? && c.path.value in files then RowBytes(files[c.path.value], c) else 0
  }

  /** A snapshot is left out exactly when it is over the budget that is left, or too large for the store. */
  predicate LeftOutRightly(data: Option<Bytes>, blob: Option<Digest>, used: nat, limit: nat) {
    data.Some? ==> (blob.None? <==> used + |data.value| > MAX_TURN_ARTIFACT_BYTES || |data.value| > limit)
  }

  predicate RowInBudget(e: Entry, c: Change, used: nat, limit: nat) {
    && LeftOutRightly(e.before, c.beforeBlob, used, limit)
    && LeftOutRightly(e.after, c.afterBlob, used + SnapshotBytes(e.before, c.beforeBlob), limit)
  }

  /** The budget is spent row by row. */
  ghost predicate InBudget(files: map<Path, Entry>, rows: seq<Change>, limit: nat) {
    forall i :: 0 <= i < |rows| && rows[i].path.Some? && rows[i].path.value in files ==>
      RowInBudget(files[rows[i].path.value], rows[i], KeptBytes(files, rows[..i]), limit)
  }

  /** So far `used` of the budget is spent. */
  ghost predicate Spent(files: map<Path, Entry>, rows: seq<Change>, used: nat, limit: nat) {
    used == KeptBytes(files, rows) <= MAX_TURN_ARTIFACT_BYTES && InBudget(files, rows, limit)
  }

  lemma MoreSpent(files: map<Path, Entry>, rows: seq<Change>, used: nat, limit: nat, p: Path, row: Change, now: nat)
    requires Spent(files, rows, used, limit) && p in files && row.path == Some(p)
    requires RowInBudget(files[p], row, used, limit) && now == used + RowBytes(files[p], row) <= MAX_TURN_ARTIFACT_BYTES
    ensures Spent(files, rows + [row], now, limit)
  {
    var all := rows + [row];
    assert all[..|rows|] == rows;
    forall i | 0 <= i < |rows| ensures all[..i] == rows[..i] && all[i] == rows[i] {}
  }

  function Size(data: Option<Bytes>): nat {
    if data.Some? then |data.value| else 0
  }

  /** The size of all snapshots of the rows, kept or not. */
  function AllBytes(files: map<Path, Entry>, rows: seq<Change>): nat {
    if rows == [] then 0
    else
      var c := rows[|rows| - 1];
      AllBytes(files, rows[..|rows| - 1])
        + if c.path.Some? && c.path.value in files then
            Size(files[c.path.value].before) + Size(files[c.path.value].after)
          else 0
  }

  predicate RowFits(e: Entry, limit: nat) {
    Size(e.before) <= limit && Size(e.after) <= limit
  }

  predicate Storable(files: map<Path, Entry>, rows: seq<Change>, limit: nat) {
    forall i :: 0 <= i < |rows| && rows[i].path.Some? && rows[i].path.value in files ==>
      RowFits(files[rows[i].path.value], limit)
  }

  predicate RowKept(c: Change) {
    (c.beforeSha.Some? ==> c.beforeBlob.Some?) && (c.afterSha.Some? ==> c.afterBlob.Some?)
  }

  /** Every snapshot of the rows is stored. */
  ghost predicate Kept(rows: seq<Change>) {
    forall c :: c in rows ==> RowKept(c)
  }

  lemma RowKeptIff(v: Vault, p: Path, e: Entry, c: Change, used: nat, limit: nat)
    requires RowOf(v, p, e, c) && RowInBudget(e, c, used, limit)
    requires used + RowBytes(e, c) <= MAX_TURN_ARTIFACT_BYTES
    ensures RowBytes(e, c) <= Size(e.before) + Size(e.after)
    ensures RowKept(c) ==> RowBytes(e, c) == Size(e.before) + Size(e.after)
    ensures RowKept(c) <==>
      used + Size(e.before) + Size(e.after) <= MAX_TURN_ARTIFACT_BYTES && RowFits(e, limit)
  {}

  lemma KeptSnoc(files: map<Path, Entry>, rows: seq<Change>, c: Change, limit: nat)
    requires c.path.Some? && c.path.value in files
    ensures var e := files[c.path.value];
      && (Kept(rows + [c]) <==> Kept(rows) && RowKept(c))
      && (Storable(files, rows + [c], limit) <==> Storable(files, rows, limit) && RowFits(e, limit))
      && AllBytes(files, rows + [c]) == AllBytes(files, rows) + Size(e.before) + Size(e.after)
      && KeptBytes(files, rows + [c]) == KeptBytes(files, rows) + RowBytes(e, c)
  {
    var all := rows + [c];
    assert all[..|rows|] == rows && all[|rows|] == c;
    assert forall i :: 0 <= i < |rows| ==> all[i] == rows[i];
    if Kept(rows + [c]) {
      forall d | d in rows ensures RowKept(d) { assert d in all; }
      assert c in all;
    }
  }

  lemma BudgetOfInit(files: map<Path, Entry>, rows: seq<Change>, c: Change, limit: nat)
    requires InBudget(files, rows + [c], limit) && c.path.Some? && c.path.value in files
    ensures InBudget(files, rows, limit) && RowInBudget(files[c.path.value], c, KeptBytes(files, rows), limit)
  {
    var all := rows + [c];
    assert all[..|rows|] == rows && all[|rows|] == c;
    forall i | 0 <= i < |rows| ensures all[i] == rows[i] && all[..i] == rows[..i] {}
  }

  /** Every snapshot is stored if and only if each is small enough and all together keep to the budget. */
  lemma {:induction false} KeptIff(v: Vault, files: map<Path, Entry>, rows: seq<Change>, limit: nat)
    requires (forall c :: c in rows ==> RowFor(v, files, c)) && InBudget(files, rows, limit)
    requires KeptBytes(files, rows) <= MAX_TURN_ARTIFACT_BYTES
    ensures Kept(rows) <==> AllBytes(files, rows) <= MAX_TURN_ARTIFACT_BYTES && Storable(files, rows, limit)
    ensures KeptBytes(files, rows) <= AllBytes(files, rows)
    ensures Kept(rows) ==> KeptBytes(files, rows) == AllBytes(files, rows)
  {
    if rows != [] {
      var init, c := rows[..|rows| - 1], rows[|rows| - 1];
      assert rows == init + [c] && c in rows;
      assert RowFor(v, files, c);
      BudgetOfInit(files, init, c, limit);
      KeptSnoc(files, init, c, limit);
      KeptIff(v, files, init, limit);
      RowKeptIff(v, c.path.value, files[c.path.value], c, KeptBytes(files, init), limit);
    }
  }

  /** The store has this content, but its copy does not have the digest any more. */
  ghost predicate Spoiled(v: Vault, data: Option<Bytes>) {
    data.Some? && v.hash(data.value) in v.blobs && !Readable(v, v.hash(data.value))
  }

  /** A reported row says what its entry says; a snapshot it names can be read back. */
  ghost predicate RowOf(v: Vault, p: Path, e: Entry, c: Change) {
    && NetType(v.hash, e) == Some(c.kind)
    && c.path == Some(p) && c.oldPath == e.oldPath
    && c.beforeSha == Digested(v.hash, e.before) && StoredAs(v, c.beforeSha, c.beforeBlob)
    && c.afterSha == Digested(v.hash, e.after) && StoredAs(v, c.afterSha, c.afterBlob)
  }

  ghost predicate StoredAs(v: Vault, sha: Option<Digest>, blob: Option<Digest>) {
    blob.None? || (blob == sha && Readable(v, blob.value))
  }

  /** The rows report, in path order, exactly the entries that have a net change. */
  ghost predicate Reports(v: Vault, files: map<Path, Entry>, rows: seq<Change>) {
    && (forall i :: 0 <= i < |rows| ==> RowFor(v, files, rows[i]))
    && (forall i, j :: 0 <= i < j < |rows| ==> rows[i].path != rows[j].path && Earlier(rows[i], rows[j]))
    && (forall p :: p in files && NetType(v.hash, files[p]).Some? ==>
        exists i :: 0 <= i < |rows| && rows[i].path == Some(p))
  }

  predicate Earlier(c: Change, d: Change) {
    c.path.Some? && d.path.Some? && Before(c.path.value, d.path.value)
  }

  ghost predicate RowFor(v: Vault, files: map<Path, Entry>, c: Change) {
    c.path.Some? && c.path.value in files && RowOf(v, c.path.value, files[c.path.value], c)
  }

  ghost predicate Grown(v0: Vault, v: Vault) {
    v.hash == v0.hash && forall d :: d in v0.blobs ==> d in v.blobs && v.blobs[d] == v0.blobs[d]
  }

  /** The same for the entries of some paths. */
  ghost predicate ReportsOf(v: Vault, files: map<Path, Entry>, rows: seq<Change>, done: seq<Path>) {
    && (forall i :: 0 <= i < |rows| ==> RowFor(v, files, rows[i]) && rows[i].path.value in done)
    && (forall i, j :: 0 <= i < j < |rows| ==> rows[i].path != rows[j].path && Earlier(rows[i], rows[j]))
    && (forall p :: p in done && p in files && NetType(v.hash, files[p]).Some? ==>
        exists i :: 0 <= i < |rows| && rows[i].path == Some(p))
  }

  lemma TakeMore(order: seq<Path>, i: nat)
    requires i < |order|
    ensures order[..i + 1] == order[..i] + [order[i]]
  {}

  lemma NoRow(v: Vault, files: map<Path, Entry>, rows: seq<Change>, done: seq<Path>, p: Path)
    requires ReportsOf(v, files, rows, done) && p in files && NetType(v.hash, files[p]).None?
    ensures ReportsOf(v, files, rows, done + [p])
  {}

  lemma MoreRows(v0: Vault, v: Vault, files: map<Path, Entry>, rows: seq<Change>, done: seq<Path>, p: Path, row: Change)
    requires Grown(v0, v) && ReportsOf(v0, files, rows, done) && StrictlySorted(done + [p])
    requires p in files && RowOf(v, p, files[p], row)
    ensures ReportsOf(v, files, rows + [row], done + [p])
  {
    var all := rows + [row];
    assert all[..|rows|] == rows;
    forall i | 0 <= i < |rows|
      ensures RowFor(v, files, all[i]) && all[i].path.value in done && Before(all[i].path.value, p) {
      assert RowFor(v0, files, rows[i]);
      SortedEnd(done, p, all[i].path.value);
    }
    BeforeIrreflexive(p);
    forall q | q in done + [p] && q in files && NetType(v.hash, files[q]).Some?
      ensures exists i :: 0 <= i < |all| && all[i].path == Some(q) {
      if q == p {
        assert all[|rows|].path == Some(p);
      } else {
        var i :| 0 <= i < |rows| && rows[i].path == Some(q);
        assert all[i].path == Some(q);
      }
    }
  }

  lemma SortedEnd(done: seq<Path>, p: Path, q: Path)
    requires StrictlySorted(done + [p]) && q in done
    ensures Before(q, p)
  {
    var i :| 0 <= i < |done| && done[i] == q;
    assert (done + [p])[i] == q && (done + [p])[|done|] == p;
  }

  /** The content of a detected deletion, or of a detected creation. */
  function Content(hash: Bytes -> Digest, e: Entry, deletions: bool): Option<Digest> {
    if deletions then if IsDeletion(e) then Some(hash(e.before.value)) else None
    else if IsCreation(e) then Some(hash(e.after.value)) else None
  }

  function Members(hash: Bytes -> Digest, entries: map<Path, Entry>, done: set<Path>, deletions: bool,
                   d: Digest): set<Path> {
    set p | p in done && p in entries && Content(hash, entries[p], deletions) == Some(d)
  }

  /** `m` groups the visited deletions (or creations) by content, without empty groups. */
  ghost predicate Groups(m: map<Digest, set<Path>>, hash: Bytes -> Digest, entries: map<Path, Entry>, done: set<Path>,
                         deletions: bool) {
    forall d :: (d in m <==> Members(hash, entries, done, deletions, d) != {})
        && (d in m ==> m[d] == Members(hash, entries, done, deletions, d))
  }

  lemma GroupGrows(m: map<Digest, set<Path>>, hash: Bytes -> Digest, entries: map<Path, Entry>, done: set<Path>,
                   deletions: bool, p: Path)
    requires Groups(m, hash, entries, done, deletions) && p in entries
    ensures var c := Content(hash, entries[p], deletions);
      if c.None? then Groups(m, hash, entries, done + {p}, deletions)
      else Groups(m[c.value := (if c.value in m then m[c.value] else {}) + {p}], hash, entries, done + {p}, deletions)
  {
    var c := Content(hash, entries[p], deletions);
    forall d ensures Members(hash, entries, done + {p}, deletions, d) ==
      Members(hash, entries, done, deletions, d) + if c == Some(d) then {p} else {} {}
  }

  function Lookup(files: map<Path, Entry>, p: Path): Option<Entry> {
    if p in files then Some(files[p]) else None
  }

  function ObservedAt(hash: Bytes -> Digest, files: map<Path, Entry>, before: Files, after: Files,
                      p: Path): Option<Entry> {
    if !Differs(hash, before, after, p) then Lookup(files, p)
    else if p in files then Some(files[p].(after := Get(after, p)))
    else Some(Entry(Get(before, p), Get(after, p), true, None))
  }

  ghost predicate HalfObserved(hash: Bytes -> Digest, files0: map<Path, Entry>, before: Files, after: Files,
                               todo: set<Path>, files: map<Path, Entry>) {
    forall p :: Lookup(files, p) == if p in todo then Lookup(files0, p) else ObservedAt(hash, files0, before, after, p)
  }

  lemma ObserveOne(hash: Bytes -> Digest, files0: map<Path, Entry>, before: Files, after: Files, todo: set<Path>,
                   files: map<Path, Entry>, p: Path)
    requires HalfObserved(hash, files0, before, after, todo, files) && p in todo
    ensures Lookup(files, p) == Lookup(files0, p)
    ensures var e := ObservedAt(hash, files0, before, after, p);
      HalfObserved(hash, files0, before, after, todo - {p}, if e.Some? then files[p := e.value] else files)
  {}

  lemma AllObserved(hash: Bytes -> Digest, files0: map<Path, Entry>, before: Files, after: Files,
                    files: map<Path, Entry>)
    requires HalfObserved(hash, files0, before, after, {}, files)
    ensures files == Observed(hash, files0, before, after)
  {
    var target := Observed(hash, files0, before, after);
    forall p ensures Lookup(files, p) == Lookup(target, p) {
      assert p !in before && p !in after ==> !Differs(hash, before, after, p);
    }
    SameEntries(files, target);
  }

  lemma SameEntries(a: map<Path, Entry>, b: map<Path, Entry>)
    requires forall p :: Lookup(a, p) == Lookup(b, p)
    ensures a == b
  {
    forall p ensures p in a <==> p in b { assert Lookup(a, p) == Lookup(b, p); }
    forall p | p in a ensures a[p] == b[p] { assert Lookup(a, p) == Lookup(b, p); }
  }

  lemma GroupsMean(hash: Bytes -> Digest, files: map<Path, Entry>, deleted: map<Digest, set<Path>>,
                   created: map<Digest, set<Path>>)
    requires Groups(deleted, hash, files, files.Keys, true) && Groups(created, hash, files, files.Keys, false)
    ensures forall d :: d in deleted <==> DeletionsOf(hash, files, d) != {}
    ensures forall d :: d in deleted ==> deleted[d] == DeletionsOf(hash, files, d)
    ensures forall d :: d in created <==> CreationsOf(hash, files, d) != {}
    ensures forall d :: d in created ==> created[d] == CreationsOf(hash, files, d)
  {
    forall d
      ensures Members(hash, files, files.Keys, true, d) == DeletionsOf(hash, files, d)
      ensures Members(hash, files, files.Keys, false, d) == CreationsOf(hash, files, d) {}
  }

  /** A move whose content is no longer waiting in `todo`. */
  ghost predicate MovedBy(hash: Bytes -> Digest, files: map<Path, Entry>, todo: set<Digest>, o: Path, n: Path) {
    Moved(hash, files, o, n) && hash(files[o].before.value) !in todo
  }

  ghost predicate Gone(hash: Bytes -> Digest, files: map<Path, Entry>, todo: set<Digest>, p: Path) {
    exists n :: MovedBy(hash, files, todo, p, n)
  }

  ghost predicate Arrived(hash: Bytes -> Digest, files: map<Path, Entry>, todo: set<Digest>, p: Path) {
    exists o :: MovedBy(hash, files, todo, o, p)
  }

  /** The dictionary while the contents in `todo` are still to be folded. */
  ghost function Partial(hash: Bytes -> Digest, files: map<Path, Entry>, todo: set<Digest>, p: Path): Option<Entry> {
    if p !in files || Gone(hash, files, todo, p) then None
    else if Arrived(hash, files, todo, p) then
      var o :| MovedBy(hash, files, todo, o, p); Some(Folded(files, o, p))
    else Some(files[p])
  }

  lemma PartialMeans(hash: Bytes -> Digest, files: map<Path, Entry>, todo: set<Digest>, o: Path, n: Path)
    requires MovedBy(hash, files, todo, o, n)
    ensures Partial(hash, files, todo, o) == None
    ensures n in files && Partial(hash, files, todo, n) == Some(Folded(files, o, n))
  {
    MovedEnds(hash, files, o, n);
  }

  lemma PartialDepends(hash: Bytes -> Digest, files: map<Path, Entry>, todo0: set<Digest>, todo: set<Digest>, p: Path)
    requires forall x :: MovedBy(hash, files, todo0, x, p) <==> MovedBy(hash, files, todo, x, p)
    requires forall x :: MovedBy(hash, files, todo0, p, x) <==> MovedBy(hash, files, todo, p, x)
    ensures Partial(hash, files, todo0, p) == Partial(hash, files, todo, p)
  {
    if o :| MovedBy(hash, files, todo0, o, p) {
      PartialMeans(hash, files, todo0, o, p);
      PartialMeans(hash, files, todo, o, p);
    }
  }

  lemma NotMoved(hash: Bytes -> Digest, files: map<Path, Entry>, d: Digest, todo: set<Digest>)
    requires d in todo
    requires |DeletionsOf(hash, files, d)| != 1 || |CreationsOf(hash, files, d)| != 1
    ensures forall p :: Partial(hash, files, todo, p) == Partial(hash, files, todo - {d}, p)
  {
    forall p ensures Partial(hash, files, todo, p) == Partial(hash, files, todo - {d}, p) {
      PartialDepends(hash, files, todo, todo - {d}, p);
    }
  }

  lemma OneMove(hash: Bytes -> Digest, files: map<Path, Entry>, d: Digest, todo: set<Digest>, o: Path, n: Path)
    requires d in todo
    requires |DeletionsOf(hash, files, d)| == 1 && o in DeletionsOf(hash, files, d)
    requires |CreationsOf(hash, files, d)| == 1 && n in CreationsOf(hash, files, d)
    ensures o != n && o in files && n in files
    ensures Partial(hash, files, todo, o) == Some(files[o]) && Partial(hash, files, todo, n) == Some(files[n])
    ensures Partial(hash, files, todo - {d}, o) == None
    ensures Partial(hash, files, todo - {d}, n) == Some(Folded(files, o, n))
    ensures forall p :: p != o && p != n ==> Partial(hash, files, todo, p) == Partial(hash, files, todo - {d}, p)
  {
    OnlyElement(DeletionsOf(hash, files, d), o);
    OnlyElement(CreationsOf(hash, files, d), n);
    assert Moved(hash, files, o, n);
    MovedEnds(hash, files, o, n);
    PartialMeans(hash, files, todo - {d}, o, n);
    assert !Gone(hash, files, todo, o) && !Arrived(hash, files, todo, n);
    assert !Arrived(hash, files, todo, o) by {
      if x :| MovedBy(hash, files, todo, x, o) { MovedEnds(hash, files, x, o); }
    }
    assert !Gone(hash, files, todo, n);
    forall p | p != o && p != n ensures Partial(hash, files, todo, p) == Partial(hash, files, todo - {d}, p) {
      forall x | Moved(hash, files, x, p) ensures hash(files[x].before.value) != d {
        MovedEnds(hash, files, x, p);
        assert p in CreationsOf(hash, files, hash(files[x].before.value));
      }
      forall x | Moved(hash, files, p, x) ensures hash(files[p].before.value) != d {
        assert p in DeletionsOf(hash, files, hash(files[p].before.value));
      }
      PartialDepends(hash, files, todo, todo - {d}, p);
    }
  }

  method Pick<T>(s: set<T>) returns (x: T)
    requires s != {}
    ensures x in s
  {
    x :| x in s;
  }

  lemma OnlyElement<T>(s: set<T>, x: T)
    requires |s| == 1 && x in s
    ensures s == {x}
  {
    assert |s - {x}| == 0;
  }

  lemma NothingMoved(hash: Bytes -> Digest, files: map<Path, Entry>, common: set<Digest>)
    requires forall d :: d in common <==> DeletionsOf(hash, files, d) != {} && CreationsOf(hash, files, d) != {}
    ensures forall p :: Partial(hash, files, common, p) == Lookup(files, p)
  {}

  lemma AllMoved(hash: Bytes -> Digest, files: map<Path, Entry>)
    ensures forall p :: Partial(hash, files, {}, p) == Lookup(Coalesced(hash, files), p)
  {
    forall p ensures Partial(hash, files, {}, p) == Lookup(Coalesced(hash, files), p) {
      assert forall o, n :: MovedBy(hash, files, {}, o, n) <==> Moved(hash, files, o, n);
      if n :| Moved(hash, files, p, n) {
        PartialMeans(hash, files, {}, p, n);
      } else if p in files && IsNewEnd(hash, files, p) {
        var o := OldEndOf(hash, files, p);
        PartialMeans(hash, files, {}, o, p);
      }
    }
  }
}
