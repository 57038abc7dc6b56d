/**
 The change collector: it keeps, per path, the first state before and the last state after
 the writes and commands of one turn, and folds a deletion and a creation of the same content
 into a rename.
 */
module Collector {
  import opened Results
  import opened Artifacts
  import opened Changes
  import opened Paths

  datatype Entry = Entry(before: Option<Bytes>, after: Option<Bytes>, detected: bool, oldPath: Option<Path>)

  /** A tool call as the executor shows it to the collector. */
  datatype Prepared = Prepared(isCommand: bool, isWrite: bool, hasError: bool, rel: Option<Path>)

  /** The workspace as a bounded scan sees it; an incomplete scan may show anything. */
  datatype Scan = Scan(files: Files, complete: bool)

  datatype State = State(files: map<Path, Entry>, commandBefore: Option<Files>, commandHead: Option<string>,
                         complete: bool)

  function Get(files: Files, p: Path): Option<Bytes> {
    if p in files then Some(files[p]) else None
  }

  function Digested(hash: Bytes -> Digest, data: Option<Bytes>): Option<Digest> {
    if data.Some? then Some(hash(data.value)) else None
  }

  function NetType(hash: Bytes -> Digest, e: Entry): Option<ChangeKind> {
    if e.oldPath.Some? then Some(Renamed)
    else if e.before.None? && e.after.None? then None
    else if e.before.None? then Some(Created)
    else if e.after.None? then Some(Deleted)
    else if hash(e.before.value) != hash(e.after.value) then Some(Modified)
    else None
  }

  // ---------------------------------------------------------------- observing

  function BeforeCall(st: State, call: Prepared, workspace: Files, scan: Scan, head: Option<string>): State {
    if call.isCommand && !call.hasError then
      State(st.files, Some(scan.files), head, st.complete && scan.complete)
    else if call.isCommand || !call.isWrite || call.hasError || call.rel.None? || call.rel.value in st.files then st
    else
      var now := Get(workspace, call.rel.value);
      st.(files := st.files[call.rel.value := Entry(now, now, false, None)])
  }

  ghost function AfterCall(hash: Bytes -> Digest, st: State, call: Prepared, ok: bool, workspace: Files, scan: Scan,
                           head: Option<string>): State {
    if call.isCommand then
      if st.commandBefore.None? then st.(complete := false)
      else
        State(Coalesced(hash, Observed(hash, st.files, st.commandBefore.value, scan.files)), None, None,
              st.complete && scan.complete && ok && st.commandHead == head)
    else if !call.isWrite || !ok || call.rel.None? then st
    else
      var p := call.rel.value;
      var e := if p in st.files then st.files[p] else Entry(None, None, false, None);
      st.(files := st.files[p := e.(after := Get(workspace, p))])
  }

  predicate Differs(hash: Bytes -> Digest, before: Files, after: Files, p: Path) {
    Digested(hash, Get(before, p)) != Digested(hash, Get(after, p))
  }

  /** Every difference a command made: a new entry, or a newer after state of an old one. */
  function Observed(hash: Bytes -> Digest, files: map<Path, Entry>, before: Files, after: Files): map<Path, Entry> {
    map p | p in files.Keys + before.Keys + after.Keys && (p in files || Differs(hash, before, after, p)) ::
      if p !in files then Entry(Get(before, p), Get(after, p), true, None)
      else if Differs(hash, before, after, p) then files[p].(after := Get(after, p))
      else files[p]
  }

  predicate IsDeletion(e: Entry) {
    e.detected && e.before.Some? && e.after.None?
  }

  predicate IsCreation(e: Entry) {
    e.detected && e.before.None? && e.after.Some?
  }

  /** The detected deletions of one content. */
  function DeletionsOf(hash: Bytes -> Digest, files: map<Path, Entry>, d: Digest): set<Path> {
    set p | p in files && IsDeletion(files[p]) && hash(files[p].before.value) == d
  }

  function CreationsOf(hash: Bytes -> Digest, files: map<Path, Entry>, d: Digest): set<Path> {
    set p | p in files && IsCreation(files[p]) && hash(files[p].after.value) == d
  }

  /** `o` and `n` are the only deletion and the only creation of one content. */
  ghost predicate Moved(hash: Bytes -> Digest, files: map<Path, Entry>, o: Path, n: Path) {
    && o in files && IsDeletion(files[o])
    && var d := hash(files[o].before.value);
    DeletionsOf(hash, files, d) == {o} && CreationsOf(hash, files, d) == {n}
  }

  ghost predicate IsOldEnd(hash: Bytes -> Digest, files: map<Path, Entry>, o: Path) {
    exists n :: Moved(hash, files, o, n)
  }

  ghost predicate IsNewEnd(hash: Bytes -> Digest, files: map<Path, Entry>, n: Path) {
    exists o :: Moved(hash, files, o, n)
  }

  ghost function OldEndOf(hash: Bytes -> Digest, files: map<Path, Entry>, n: Path): Path
    requires IsNewEnd(hash, files, n)
  {
    var o :| Moved(hash, files, o, n); o
  }

  function Folded(files: map<Path, Entry>, o: Path, n: Path): Entry
    requires o in files && n in files
  {
    files[n].(before := files[o].before, oldPath := Some(o))
  }

  ghost function Coalesced(hash: Bytes -> Digest, files: map<Path, Entry>): map<Path, Entry> {
    map p | p in files && !IsOldEnd(hash, files, p) ::
      if IsNewEnd(hash, files, p) then Folded(files, OldEndOf(hash, files, p), p) else files[p]
  }

  lemma MovedEnds(hash: Bytes -> Digest, files: map<Path, Entry>, o: Path, n: Path)
    requires Moved(hash, files, o, n)
    ensures n in files && IsCreation(files[n]) && hash(files[n].after.value) == hash(files[o].before.value)
    ensures forall x :: Moved(hash, files, x, n) ==> x == o
    ensures forall y :: Moved(hash, files, o, y) ==> y == n
    ensures !IsOldEnd(hash, files, n)
  {
    assert n in CreationsOf(hash, files, hash(files[o].before.value));
    forall x | Moved(hash, files, x, n) ensures x == o {
      assert n in CreationsOf(hash, files, hash(files[x].before.value));
      assert x in DeletionsOf(hash, files, hash(files[o].before.value));
    }
    forall y | Moved(hash, files, o, y) ensures y == n {
      assert y in CreationsOf(hash, files, hash(files[o].before.value));
    }
  }
}
