/** When the collector's report is exactly what the turn did. */
module CollectorLaws {
  import opened Results
  import opened Artifacts
  import opened Changes
  import opened Collector
  import opened Paths
  import opened TurnCollector

  /** One executed tool call: what it reported, the workspace it left, and what the scans around it saw. */
  datatype Call = Call(
    prepared: Prepared, ok: bool, workspace: Files,
    scanBefore: Scan, scanAfter: Scan, headBefore: Option<string>, headAfter: Option<string>)

  ghost function Observe(hash: Bytes -> Digest, st: State, workspace: Files, c: Call): State {
    AfterCall(hash, BeforeCall(st, c.prepared, workspace, c.scanBefore, c.headBefore),
              c.prepared, c.ok, c.workspace, c.scanAfter, c.headAfter)
  }

  /**
   Only a successful write, and only on its own path, or a command changes the workspace; a
   complete scan shows the workspace. (A call refused beforehand never reaches the collector.)
   */
  ghost predicate Honest(workspace: Files, c: Call) {
    && !c.prepared.hasError
    && (c.scanBefore.complete ==> c.scanBefore.files == workspace)
    && (c.scanAfter.complete ==> c.scanAfter.files == c.workspace)
    && (!c.prepared.isCommand ==>
          if c.prepared.isWrite && c.ok && c.prepared.rel.Some?
          then c.workspace - {c.prepared.rel.value} == workspace - {c.prepared.rel.value}
          else c.workspace == workspace)
  }

  // ---------------------------------------------------------------- where renamed files come from

  /** For every folded entry, the path that its file had at the start of the turn. */
  type Origins = map<Path, Path>

  ghost predicate IsOrigin(org: Origins, q: Path) {
    exists p :: p in org && org[p] == q
  }

  function Source(org: Origins, p: Path): Path {
    if p in org then org[p] else p
  }

  /** Folding `o` into `n` hands on the origin of `o`: a second rename of a file does not change where it came from. */
  ghost function FoldedOrigins(hash: Bytes -> Digest, files: map<Path, Entry>, org: Origins): Origins {
    map p | p in Coalesced(hash, files) && Coalesced(hash, files)[p].oldPath.Some? ::
      Source(org, if IsNewEnd(hash, files, p) then OldEndOf(hash, files, p) else p)
  }

  ghost function OriginsAfter(hash: Bytes -> Digest, st: State, org: Origins, c: Call): Origins {
    if c.prepared.isCommand then
      FoldedOrigins(hash, Observed(hash, st.files, c.scanBefore.files, c.scanAfter.files), org)
    else org
  }

  // ---------------------------------------------------------------- the invariant

  /** The entry of `p`, or the lack of one, tells the truth up to the old path that it names. */
  ghost predicate FollowedAt(hash: Bytes -> Digest, files: map<Path, Entry>, org: Origins, start: Files, now: Files,
                             p: Path) {
    if p !in files then p !in org && if IsOrigin(org, p) then p !in now else !Differs(hash, start, now, p)
    else
      var e := files[p];
      && Digested(hash, e.after) == Digested(hash, Get(now, p)) && (e.oldPath.Some? <==> p in org)
      && (if e.oldPath.None? then
            if IsOrigin(org, p) then e.before.None? else Digested(hash, e.before) == Digested(hash, Get(start, p))
          else
            var o := e.oldPath.value;
            && o != p && (IsOrigin(org, p) || p !in start) && (IsOrigin(org, o) || o !in start)
            && e.before.Some? && Digested(hash, e.before) == Digested(hash, Get(start, org[p])))
  }

  ghost predicate Follows(hash: Bytes -> Digest, files: map<Path, Entry>, org: Origins, start: Files, now: Files) {
    && (forall p :: FollowedAt(hash, files, org, start, now, p))
    && (forall p, q :: p in org && q in org && org[p] == org[q] ==> p == q)
  }

  lemma WriteFollowed(hash: Bytes -> Digest, st: State, org: Origins, start: Files, now: Files, c: Call)
    requires Follows(hash, st.files, org, start, now) && Honest(now, c) && !c.prepared.isCommand
    ensures Follows(hash, Observe(hash, st, now, c).files, org, start, c.workspace)
  {
    forall q ensures FollowedAt(hash, Observe(hash, st, now, c).files, org, start, c.workspace, q) {
      WriteFollowedAt(hash, st, org, start, now, c, q);
    }
  }

  lemma WriteFollowedAt(hash: Bytes -> Digest, st: State, org: Origins, start: Files, now: Files, c: Call, q: Path)
    requires FollowedAt(hash, st.files, org, start, now, q) && Honest(now, c) && !c.prepared.isCommand
    ensures FollowedAt(hash, Observe(hash, st, now, c).files, org, start, c.workspace, q)
  {
    var p := c.prepared.rel;
    if p != Some(q) && c.workspace != now {
      assert q in c.workspace - {p.value} <==> q in now - {p.value};
    }
  }

  lemma ObservedFollowed(hash: Bytes -> Digest, files: map<Path, Entry>, org: Origins, start: Files, now: Files,
                         next: Files)
    requires Follows(hash, files, org, start, now)
    ensures Follows(hash, Observed(hash, files, now, next), org, start, next)
  {
    forall q ensures FollowedAt(hash, Observed(hash, files, now, next), org, start, next, q) {
      assert FollowedAt(hash, files, org, start, now, q);
    }
  }

  /** The ends of a fold: the old one may be a folded entry itself, the new one is not. */
  lemma FoldEnds(hash: Bytes -> Digest, files: map<Path, Entry>, org: Origins, start: Files, now: Files, o: Path,
                 n: Path)
    requires Follows(hash, files, org, start, now) && Moved(hash, files, o, n)
    ensures n in Coalesced(hash, files) && Coalesced(hash, files)[n] == Folded(files, o, n)
    ensures o !in Coalesced(hash, files) && files[n].oldPath.None? && n !in org
    ensures FoldedOrigins(hash, files, org)[n] == Source(org, o)
    ensures o !in org ==> !IsOrigin(org, o)
    ensures Digested(hash, files[o].before) == Digested(hash, Get(start, Source(org, o)))
  {
    MovedEnds(hash, files, o, n);
    assert FollowedAt(hash, files, org, start, now, o) && FollowedAt(hash, files, org, start, now, n);
  }

  /** An entry that is no end of a fold keeps its origin. */
  lemma OtherOrigins(hash: Bytes -> Digest, files: map<Path, Entry>, org: Origins, start: Files, now: Files, p: Path)
    requires Follows(hash, files, org, start, now) && p in org && !IsOldEnd(hash, files, p)
    ensures !IsNewEnd(hash, files, p)
    ensures p in FoldedOrigins(hash, files, org) && FoldedOrigins(hash, files, org)[p] == org[p]
  {
    assert FollowedAt(hash, files, org, start, now, p);
    if o :| Moved(hash, files, o, p) { FoldEnds(hash, files, org, start, now, o, p); }
  }

  /** Folding makes an origin of every old end that is not a renamed file already. */
  lemma OriginsGrow(hash: Bytes -> Digest, files: map<Path, Entry>, org: Origins, start: Files, now: Files, q: Path)
    requires Follows(hash, files, org, start, now)
    ensures IsOrigin(FoldedOrigins(hash, files, org), q) <==>
      IsOrigin(org, q) || (IsOldEnd(hash, files, q) && q !in org)
  {
    var org1 := FoldedOrigins(hash, files, org);
    if p :| p in org1 && org1[p] == q {
      if o :| Moved(hash, files, o, p) {
        FoldEnds(hash, files, org, start, now, o, p);
      } else {
        assert FollowedAt(hash, files, org, start, now, p);
      }
    }
    if m :| m in org && org[m] == q {
      if n :| Moved(hash, files, m, n) {
        FoldEnds(hash, files, org, start, now, m, n);
        assert org1[n] == q;
      } else {
        OtherOrigins(hash, files, org, start, now, m);
        assert org1[m] == q;
      }
    }
    if n :| Moved(hash, files, q, n) {
      FoldEnds(hash, files, org, start, now, q, n);
      assert q !in org ==> org1[n] == q;
    }
  }

  /** The entry that a folded entry is made from. */
  lemma FoldedFrom(hash: Bytes -> Digest, files: map<Path, Entry>, org: Origins, start: Files, now: Files, p: Path)
    returns (o: Path)
    requires Follows(hash, files, org, start, now) && p in FoldedOrigins(hash, files, org)
    ensures FoldedOrigins(hash, files, org)[p] == Source(org, o) && (o in org || !IsOrigin(org, o))
    ensures if Moved(hash, files, o, p) then true else o == p && p in org && !IsOldEnd(hash, files, p)
  {
    if x :| Moved(hash, files, x, p) {
      FoldEnds(hash, files, org, start, now, x, p);
      o := x;
    } else {
      assert FollowedAt(hash, files, org, start, now, p);
      o := p;
    }
  }

  lemma OriginsStayDistinct(hash: Bytes -> Digest, files: map<Path, Entry>, org: Origins, start: Files, now: Files,
                            p: Path, q: Path)
    requires Follows(hash, files, org, start, now)
    requires var org1 := FoldedOrigins(hash, files, org); p in org1 && q in org1 && org1[p] == org1[q]
    ensures p == q
  {
    var x := FoldedFrom(hash, files, org, start, now, p);
    var y := FoldedFrom(hash, files, org, start, now, q);
    assert x == y;
    if Moved(hash, files, x, p) && Moved(hash, files, x, q) { MovedEnds(hash, files, x, p); }
  }

  lemma CoalescedFollowed(hash: Bytes -> Digest, files: map<Path, Entry>, org: Origins, start: Files, now: Files)
    requires Follows(hash, files, org, start, now)
    ensures Follows(hash, Coalesced(hash, files), FoldedOrigins(hash, files, org), start, now)
  {
    var org1 := FoldedOrigins(hash, files, org);
    forall q ensures FollowedAt(hash, Coalesced(hash, files), org1, start, now, q) {
      CoalescedFollowedAt(hash, files, org, start, now, q);
    }
    forall p, q | p in org1 && q in org1 && org1[p] == org1[q] ensures p == q {
      OriginsStayDistinct(hash, files, org, start, now, p, q);
    }
  }

  lemma CoalescedFollowedAt(hash: Bytes -> Digest, files: map<Path, Entry>, org: Origins, start: Files, now: Files,
                            q: Path)
    requires Follows(hash, files, org, start, now)
    ensures FollowedAt(hash, Coalesced(hash, files), FoldedOrigins(hash, files, org), start, now, q)
  {
    OriginsGrow(hash, files, org, start, now, q);
    assert FollowedAt(hash, files, org, start, now, q);
    if o :| Moved(hash, files, o, q) {
      FoldEnds(hash, files, org, start, now, o, q);
      OriginsGrow(hash, files, org, start, now, o);
      MovedEnds(hash, files, o, q);
      assert FollowedAt(hash, files, org, start, now, o);
      assert IsOldEnd(hash, files, o);
    } else if n :| Moved(hash, files, q, n) {
      FoldEnds(hash, files, org, start, now, q, n);
    } else if q in files && files[q].oldPath.Some? {
      OriginsGrow(hash, files, org, start, now, files[q].oldPath.value);
      OtherOrigins(hash, files, org, start, now, q);
    }
  }

  // ---------------------------------------------------------------- whole turns

  ghost function Play(hash: Bytes -> Digest, st: State, workspace: Files, calls: seq<Call>): (State, Files)
    decreases |calls|
  {
    if calls == [] then (st, workspace)
    else Play(hash, Observe(hash, st, workspace, calls[0]), calls[0].workspace, calls[1..])
  }

  ghost function OriginsOf(hash: Bytes -> Digest, st: State, org: Origins, workspace: Files, calls: seq<Call>): Origins
    decreases |calls|
  {
    if calls == [] then org
    else OriginsOf(hash, Observe(hash, st, workspace, calls[0]), OriginsAfter(hash, st, org, calls[0]),
                   calls[0].workspace, calls[1..])
  }

  ghost predicate HonestRun(workspace: Files, calls: seq<Call>)
    decreases |calls|
  {
    calls == [] || (Honest(workspace, calls[0]) && HonestRun(calls[0].workspace, calls[1..]))
  }

  lemma CallFollowed(hash: Bytes -> Digest, st: State, org: Origins, start: Files, now: Files, c: Call)
    requires st.complete ==> Follows(hash, st.files, org, start, now)
    requires Honest(now, c)
    ensures var st1 := Observe(hash, st, now, c);
      st1.complete ==> Follows(hash, st1.files, OriginsAfter(hash, st, org, c), start, c.workspace)
  {
    if Observe(hash, st, now, c).complete {
      if c.prepared.isCommand {
        ObservedFollowed(hash, st.files, org, start, now, c.workspace);
        CoalescedFollowed(hash, Observed(hash, st.files, now, c.workspace), org, start, c.workspace);
      } else {
        WriteFollowed(hash, st, org, start, now, c);
      }
    }
  }

  lemma {:induction false} RunFollowed(hash: Bytes -> Digest, st: State, org: Origins, start: Files, now: Files,
                                       calls: seq<Call>)
    requires st.complete ==> Follows(hash, st.files, org, start, now)
    requires HonestRun(now, calls)
    ensures var (st1, now1) := Play(hash, st, now, calls);
      st1.complete ==> Follows(hash, st1.files, OriginsOf(hash, st, org, now, calls), start, now1)
    decreases |calls|
  {
    if calls != [] {
      CallFollowed(hash, st, org, start, now, calls[0]);
      RunFollowed(hash, Observe(hash, st, now, calls[0]), OriginsAfter(hash, st, org, calls[0]), start,
                  calls[0].workspace, calls[1..]);
    }
  }

  // ---------------------------------------------------------------- when the recorded old paths are right

  /** `p` is recorded as the old path of a rename. */
  ghost predicate RenamedAway(files: map<Path, Entry>, p: Path) {
    exists n :: n in files && files[n].oldPath == Some(p)
  }

  ghost predicate OldsDistinct(files: map<Path, Entry>) {
    forall p, q :: p in files && q in files && files[p].oldPath.Some? && files[p].oldPath == files[q].oldPath ==> p == q
  }

  /** Some renamed file of this content really comes from `o`. */
  ghost predicate ComesFrom(hash: Bytes -> Digest, files: map<Path, Entry>, org: Origins, o: Path,
                            content: Option<Bytes>) {
    exists m :: m in org && m in files && org[m] == o && Digested(hash, files[m].before) == Digested(hash, content)
  }

  /**
   No two renames name the same old path, and each names the origin of a renamed file of the same content: its own
   or, as nobody can tell, that of another one.
   */
  ghost predicate OldsAreOrigins(hash: Bytes -> Digest, files: map<Path, Entry>, org: Origins) {
    && OldsDistinct(files)
    && forall p :: p in files && files[p].oldPath.Some? ==>
         ComesFrom(hash, files, org, files[p].oldPath.value, files[p].before)
  }

  /** Every old path held, at the start of the turn, the content that the rename is said to have moved. */
  ghost predicate OldsHeld(hash: Bytes -> Digest, files: map<Path, Entry>, start: Files) {
    forall p :: p in files && files[p].oldPath.Some? ==>
      Digested(hash, files[p].before) == Digested(hash, Get(start, files[p].oldPath.value))
  }

  lemma OldsAreOriginsIff(hash: Bytes -> Digest, files: map<Path, Entry>, org: Origins, start: Files, now: Files)
    requires Follows(hash, files, org, start, now)
    ensures OldsAreOrigins(hash, files, org) <==> OldsDistinct(files) && OldsHeld(hash, files, start)
  {
    forall p | p in files && files[p].oldPath.Some?
      ensures ComesFrom(hash, files, org, files[p].oldPath.value, files[p].before) <==>
        Digested(hash, files[p].before) == Digested(hash, Get(start, files[p].oldPath.value))
    {
      var o := files[p].oldPath.value;
      assert FollowedAt(hash, files, org, start, now, p);
      if m :| m in org && org[m] == o { assert FollowedAt(hash, files, org, start, now, m); }
    }
  }

  lemma LessOne(m: Origins, p: Path)
    requires p in m
    ensures m.Keys == (m - {p}).Keys + {p} && m.Values == (m - {p}).Values + {m[p]}
  {
    var rest := m - {p};
    forall x | x in m.Values ensures x in rest.Values + {m[p]} {
      var q :| q in m && m[q] == x;
      assert q == p || (q in rest && rest[q] == x);
    }
  }

  lemma {:induction false} DistinctValues(m: Origins)
    requires forall p, q :: p in m && q in m && m[p] == m[q] ==> p == q
    ensures |m.Values| == |m.Keys|
    decreases |m.Keys|
  {
    if m.Keys == {} {
      assert m.Values == {};
    } else {
      var p :| p in m;
      LessOne(m, p);
      DistinctValues(m - {p});
    }
  }

  lemma SameSize(a: set<Path>, b: set<Path>)
    requires a <= b && |a| == |b|
    ensures a == b
  {
    assert b == a + (b - a) && |b - a| == 0;
  }

  function OldsOf(files: map<Path, Entry>, keys: set<Path>): Origins
    requires forall p :: p in keys ==> p in files && files[p].oldPath.Some?
  {
    map p | p in keys :: files[p].oldPath.value
  }

  lemma OldsSize(files: map<Path, Entry>, keys: set<Path>)
    requires OldsDistinct(files) && forall p :: p in keys ==> p in files && files[p].oldPath.Some?
    ensures |OldsOf(files, keys).Values| == |keys|
  {
    var olds := OldsOf(files, keys);
    assert olds.Keys == keys;
    forall p, q | p in olds && q in olds && olds[p] == olds[q] ensures p == q {
      assert files[p].oldPath == files[q].oldPath;
    }
    DistinctValues(olds);
  }

  lemma OriginIsValue(m: Origins, q: Path)
    ensures IsOrigin(m, q) <==> q in m.Values
  {}

  lemma SameOrigins(a: Origins, b: Origins, q: Path)
    requires |a.Values| == |b.Values| && forall x :: IsOrigin(a, x) ==> IsOrigin(b, x)
    ensures IsOrigin(a, q) <==> IsOrigin(b, q)
  {
    forall x | x in a.Values ensures x in b.Values {
      OriginIsValue(a, x);
      OriginIsValue(b, x);
    }
    SameSize(a.Values, b.Values);
    OriginIsValue(a, q);
    OriginIsValue(b, q);
  }

  lemma OldIsOrigin(hash: Bytes -> Digest, files: map<Path, Entry>, org: Origins, keys: set<Path>, x: Path)
    requires forall p :: p in keys ==> p in files && files[p].oldPath.Some?
    requires OldsAreOrigins(hash, files, org)
    ensures IsOrigin(OldsOf(files, keys), x) ==> IsOrigin(org, x)
  {
    if p :| p in OldsOf(files, keys) && OldsOf(files, keys)[p] == x {
      assert ComesFrom(hash, files, org, x, files[p].before);
    }
  }

  /** As many old paths as origins, so when every old path is an origin every origin is an old path. */
  lemma OldsAreAll(hash: Bytes -> Digest, files: map<Path, Entry>, org: Origins, q: Path)
    requires forall p :: p in org.Keys ==> p in files && files[p].oldPath.Some?
    requires forall p, q :: p in org && q in org && org[p] == org[q] ==> p == q
    requires OldsAreOrigins(hash, files, org)
    ensures IsOrigin(OldsOf(files, org.Keys), q) <==> IsOrigin(org, q)
  {
    OldsSize(files, org.Keys);
    DistinctValues(org);
    forall x ensures IsOrigin(OldsOf(files, org.Keys), x) ==> IsOrigin(org, x) {
      OldIsOrigin(hash, files, org, org.Keys, x);
    }
    SameOrigins(OldsOf(files, org.Keys), org, q);
  }

  lemma OriginsAreOlds(hash: Bytes -> Digest, files: map<Path, Entry>, org: Origins, start: Files, now: Files, q: Path)
    requires Follows(hash, files, org, start, now) && OldsAreOrigins(hash, files, org)
    ensures RenamedAway(files, q) <==> IsOrigin(org, q)
  {
    forall p ensures p in org.Keys <==> p in files && files[p].oldPath.Some? {
      assert FollowedAt(hash, files, org, start, now, p);
    }
    OldsAreAll(hash, files, org, q);
    OldIsValue(files, org.Keys, q);
  }

  lemma OldIsValue(files: map<Path, Entry>, keys: set<Path>, q: Path)
    requires forall p :: p in keys <==> p in files && files[p].oldPath.Some?
    ensures RenamedAway(files, q) <==> IsOrigin(OldsOf(files, keys), q)
  {
    var olds := OldsOf(files, keys);
    if n :| n in files && files[n].oldPath == Some(q) { assert n in olds && olds[n] == q; }
    if p :| p in olds && olds[p] == q { assert files[p].oldPath == Some(q); }
  }

  /** The entry of `p`, or the lack of one, tells the whole truth about `p` between turn start and now. */
  ghost predicate TrackedAt(hash: Bytes -> Digest, files: map<Path, Entry>, start: Files, now: Files, p: Path) {
    if p !in files then if RenamedAway(files, p) then p !in now else !Differs(hash, start, now, p)
    else
      var e := files[p];
      && Digested(hash, e.after) == Digested(hash, Get(now, p))
      && (if e.oldPath.None? then
            if RenamedAway(files, p) then e.before.None? else Digested(hash, e.before) == Digested(hash, Get(start, p))
          else
            var o := e.oldPath.value;
            && o != p && (RenamedAway(files, p) || p !in start)
            && e.before.Some? && Digested(hash, e.before) == Digested(hash, Get(start, o)))
  }

  ghost predicate Tracks(hash: Bytes -> Digest, files: map<Path, Entry>, start: Files, now: Files) {
    (forall p :: TrackedAt(hash, files, start, now, p)) && OldsDistinct(files)
  }

  lemma OriginsTrack(hash: Bytes -> Digest, files: map<Path, Entry>, org: Origins, start: Files, now: Files)
    requires Follows(hash, files, org, start, now) && OldsAreOrigins(hash, files, org)
    ensures Tracks(hash, files, start, now)
  {
    OldsAreOriginsIff(hash, files, org, start, now);
    forall p ensures TrackedAt(hash, files, start, now, p) {
      assert FollowedAt(hash, files, org, start, now, p);
      OriginsAreOlds(hash, files, org, start, now, p);
    }
  }

  // ---------------------------------------------------------------- the report

  /** Every folded rename still has its new path at the end of the turn. */
  ghost predicate RenamesLanded(files: map<Path, Entry>, now: Files) {
    forall p :: p in files && files[p].oldPath.Some? ==> p in now
  }

  /** No old path of a folded rename exists again at the end of the turn. */
  ghost predicate OldEndsGone(files: map<Path, Entry>, now: Files) {
    forall p :: p in files && files[p].oldPath.Some? ==> files[p].oldPath.value !in now
  }

  /** A row is faithful unless its path was renamed away, or it is a rename whose ends are not as it says. */
  lemma RowFaithful(v: Vault, files: map<Path, Entry>, c: Change, start: Files, now: Files)
    requires Tracks(v.hash, files, start, now) && RowFor(v, files, c)
    requires (c.beforeSha.Some? ==> c.beforeBlob.Some?) && (c.afterSha.Some? ==> c.afterBlob.Some?)
    ensures Faithful(v, c, View(v.hash, start), View(v.hash, now)) <==>
      !RenamedAway(files, c.path.value) && (c.kind.Renamed? ==> c.path.value in now && c.oldPath.value !in now)
    ensures Faithful(v, c, View(v.hash, start), View(v.hash, now)) ==>
      forall q :: q in Names(c) ==> Differs(v.hash, start, now, q)
  {
    var p := c.path.value;
    assert TrackedAt(v.hash, files, start, now, p);
    if n :| n in files && files[n].oldPath == Some(p) { assert TrackedAt(v.hash, files, start, now, n); }
    forall q
      ensures Look(View(v.hash, start), q) == Digested(v.hash, Get(start, q))
      ensures Look(View(v.hash, now), q) == Digested(v.hash, Get(now, q)) {}
  }

  /** When every rename is as reported, no reported path was renamed away. */
  lemma ReportedStays(v: Vault, files: map<Path, Entry>, c: Change, start: Files, now: Files)
    requires Tracks(v.hash, files, start, now) && RowFor(v, files, c) && RenamesLanded(files, now)
    requires OldEndsGone(files, now)
    ensures !RenamedAway(files, c.path.value)
  {
    assert TrackedAt(v.hash, files, start, now, c.path.value);
  }

  /** Every changed path is named by some row. */
  lemma ChangeIsNamed(v: Vault, files: map<Path, Entry>, rows: seq<Change>, start: Files, now: Files, q: Path)
    requires Tracks(v.hash, files, start, now) && Reports(v, files, rows)
    requires Differs(v.hash, start, now, q)
    ensures exists i :: 0 <= i < |rows| && q in Names(rows[i])
  {
    assert TrackedAt(v.hash, files, start, now, q);
    if RenamedAway(files, q) {
      var n :| n in files && files[n].oldPath == Some(q);
      var i :| 0 <= i < |rows| && rows[i].path == Some(n);
      assert q in Names(rows[i]);
    } else {
      var i :| 0 <= i < |rows| && rows[i].path == Some(q);
      assert q in Names(rows[i]);
    }
  }

  lemma RowsDisjoint(v: Vault, files: map<Path, Entry>, c: Change, d: Change, start: Files, now: Files)
    requires Tracks(v.hash, files, start, now) && RowFor(v, files, c) && RowFor(v, files, d) && c.path != d.path
    requires !RenamedAway(files, c.path.value) && !RenamedAway(files, d.path.value)
    ensures Names(c) !! Names(d)
  {}

  /** A row without a snapshot that it needs cannot be read back. */
  lemma DescribedIsKept(v: Vault, files: map<Path, Entry>, rows: seq<Change>, start: Files, now: Files)
    requires Reports(v, files, rows) && Describes(v, rows, View(v.hash, start), View(v.hash, now))
    ensures Kept(rows)
  {
    forall c | c in rows ensures RowKept(c) {
      var i :| 0 <= i < |rows| && rows[i] == c;
      assert RowFor(v, files, rows[i]) && Faithful(v, rows[i], View(v.hash, start), View(v.hash, now));
    }
  }

  /**
   The report is exactly the difference of the turn if and only if it is whole and every folded rename is as
   reported.
   */
  lemma ReportExact(v: Vault, files: map<Path, Entry>, rows: seq<Change>, start: Files, now: Files)
    requires Tracks(v.hash, files, start, now) && Reports(v, files, rows)
    ensures Describes(v, rows, View(v.hash, start), View(v.hash, now)) <==>
      Kept(rows) && RenamesLanded(files, now) && OldEndsGone(files, now)
  {
    var before, after := View(v.hash, start), View(v.hash, now);
    if !Kept(rows) {
      if Describes(v, rows, before, after) { DescribedIsKept(v, files, rows, start, now); }
    } else if RenamesLanded(files, now) && OldEndsGone(files, now) {
      ReportDescribes(v, files, rows, start, now);
    } else {
      var p :| p in files && files[p].oldPath.Some? && (p !in now || files[p].oldPath.value in now);
      var i :| 0 <= i < |rows| && rows[i].path == Some(p);
      assert rows[i] in rows;
      RowFaithful(v, files, rows[i], start, now);
      assert !Faithful(v, rows[i], before, after);
    }
  }

  lemma ReportDescribes(v: Vault, files: map<Path, Entry>, rows: seq<Change>, start: Files, now: Files)
    requires Tracks(v.hash, files, start, now) && Reports(v, files, rows) && Kept(rows)
    requires RenamesLanded(files, now) && OldEndsGone(files, now)
    ensures Describes(v, rows, View(v.hash, start), View(v.hash, now))
  {
    var before, after := View(v.hash, start), View(v.hash, now);
    forall q
      ensures Look(before, q) == Digested(v.hash, Get(start, q)) && Look(after, q) == Digested(v.hash, Get(now, q)) {}
    forall i | 0 <= i < |rows|
      ensures Faithful(v, rows[i], before, after) && !RenamedAway(files, rows[i].path.value)
      ensures forall q :: q in Names(rows[i]) ==> Differs(v.hash, start, now, q)
    {
      assert rows[i] in rows;
      ReportedStays(v, files, rows[i], start, now);
      RowFaithful(v, files, rows[i], start, now);
    }
    forall i, j | 0 <= i < j < |rows| ensures Names(rows[i]) !! Names(rows[j]) {
      RowsDisjoint(v, files, rows[i], rows[j], start, now);
    }
    forall q ensures (exists i :: 0 <= i < |rows| && q in Names(rows[i])) <==> Look(before, q) != Look(after, q) {
      if Look(before, q) != Look(after, q) { ChangeIsNamed(v, files, rows, start, now, q); }
    }
  }

  const FRESH := State(map[], None, None, true)

  lemma NamedOnce(rows: seq<Change>, i: nat, j: nat, o: Path)
    requires forall x, y :: 0 <= x < y < |rows| ==> Names(rows[x]) !! Names(rows[y])
    requires i < |rows| && j < |rows| && o in Names(rows[i]) && o in Names(rows[j])
    ensures i == j
  {}

  lemma TruthNamesOrigins(v: Vault, files: map<Path, Entry>, rows: seq<Change>, start: Files, now: Files)
    requires Reports(v, files, rows) && Describes(v, rows, View(v.hash, start), View(v.hash, now))
    ensures OldsDistinct(files) && OldsHeld(v.hash, files, start)
  {
    forall p | p in files && files[p].oldPath.Some?
      ensures Digested(v.hash, files[p].before) == Digested(v.hash, Get(start, files[p].oldPath.value))
    {
      var i :| 0 <= i < |rows| && rows[i].path == Some(p);
      assert RowFor(v, files, rows[i]) && Faithful(v, rows[i], View(v.hash, start), View(v.hash, now));
    }
    forall p, q | p in files && q in files && files[p].oldPath.Some? && files[p].oldPath == files[q].oldPath
      ensures p == q {
      var i :| 0 <= i < |rows| && rows[i].path == Some(p);
      var j :| 0 <= j < |rows| && rows[j].path == Some(q);
      assert RowFor(v, files, rows[i]) && RowFor(v, files, rows[j]);
      var o := files[p].oldPath.value;
      assert o in Names(rows[i]) && o in Names(rows[j]);
      NamedOnce(rows, i, j, o);
    }
  }

  /**
   Collector exactness, for every turn: coverage that is still complete at the end means the report is exactly the
   difference between turn start and turn end, if and only if every snapshot was stored, every folded rename still has
   its new path, its old path has not come back, and the recorded old paths are the origins of the renamed files.
   */
  lemma CollectorExact(v: Vault, start: Files, calls: seq<Call>, rows: seq<Change>)
    requires HonestRun(start, calls)
    requires var (st, _) := Play(v.hash, FRESH, start, calls); st.complete && Reports(v, st.files, rows)
    ensures var (st, now) := Play(v.hash, FRESH, start, calls);
      Describes(v, rows, View(v.hash, start), View(v.hash, now)) <==>
        && Kept(rows) && RenamesLanded(st.files, now) && OldEndsGone(st.files, now)
        && OldsAreOrigins(v.hash, st.files, OriginsOf(v.hash, FRESH, map[], start, calls))
  {
    var (st, now) := Play(v.hash, FRESH, start, calls);
    var org := OriginsOf(v.hash, FRESH, map[], start, calls);
    RunFollowed(v.hash, FRESH, map[], start, start, calls);
    FollowedReport(v, st.files, org, rows, start, now);
  }

  lemma FollowedReport(v: Vault, files: map<Path, Entry>, org: Origins, rows: seq<Change>, start: Files, now: Files)
    requires Follows(v.hash, files, org, start, now) && Reports(v, files, rows)
    ensures Describes(v, rows, View(v.hash, start), View(v.hash, now)) <==>
      Kept(rows) && RenamesLanded(files, now) && OldEndsGone(files, now) && OldsAreOrigins(v.hash, files, org)
  {
    OldsAreOriginsIff(v.hash, files, org, start, now);
    if Describes(v, rows, View(v.hash, start), View(v.hash, now)) { TruthNamesOrigins(v, files, rows, start, now); }
    if OldsAreOrigins(v.hash, files, org) {
      OriginsTrack(v.hash, files, org, start, now);
      ReportExact(v, files, rows, start, now);
    }
  }

  /** A path whose content is the same at both ends of the turn is named only because of a folded rename. */
  lemma RestoredIsNotReported(v: Vault, files: map<Path, Entry>, org: Origins, rows: seq<Change>, start: Files,
                              now: Files, p: Path)
    requires Follows(v.hash, files, org, start, now) && Reports(v, files, rows) && !Differs(v.hash, start, now, p)
    ensures (exists i :: 0 <= i < |rows| && p in Names(rows[i])) <==>
      RenamedAway(files, p) || (p in files && files[p].oldPath.Some?) || IsOrigin(org, p)
  {
    assert FollowedAt(v.hash, files, org, start, now, p);
    if m :| m in org && org[m] == p { assert FollowedAt(v.hash, files, org, start, now, m); }
    if RenamedAway(files, p) {
      var n :| n in files && files[n].oldPath == Some(p);
      var i :| 0 <= i < |rows| && rows[i].path == Some(n);
      assert p in Names(rows[i]);
    } else if p in files && (files[p].oldPath.Some? || IsOrigin(org, p)) {
      var i :| 0 <= i < |rows| && rows[i].path == Some(p);
      assert p in Names(rows[i]);
    }
  }

  // ---------------------------------------------------------------- where renames are not as reported

  /** A command that renames a file, seen by complete scans. */
  function RenameCall(from: Files, to: Files): Call {
    Call(Prepared(true, false, false, None), true, to, Scan(from, true), Scan(to, true), None, None)
  }

  /** What the collector keeps of a file that was renamed from `o`. */
  function RenamedEntry(o: Path, data: Bytes): Entry {
    Entry(Some(data), Some(data), true, Some(o))
  }

  lemma RenameFolds(hash: Bytes -> Digest, files: map<Path, Entry>, rest: Files, x: Path, y: Path, data: Bytes)
    requires x != y && x !in rest && y !in rest
    requires files == map[] || exists z :: files == map[x := RenamedEntry(z, data)]
    ensures Observe(hash, State(files, None, None, true), rest[x := data], RenameCall(rest[x := data], rest[y := data]))
         == State(map[y := RenamedEntry(x, data)], None, None, true)
  {
    var w, w1 := rest[x := data], rest[y := data];
    var seen := Observed(hash, files, w, w1);
    assert forall p :: Differs(hash, w, w1, p) <==> p == x || p == y;
    assert seen.Keys == {x, y};
    SingleMove(hash, seen, x, y);
  }

  lemma PlayTwo(hash: Bytes -> Digest, st: State, workspace: Files, c: Call, d: Call)
    ensures Play(hash, st, workspace, [c, d]) ==
      (Observe(hash, Observe(hash, st, workspace, c), c.workspace, d), d.workspace)
  {
    assert [c, d][1..] == [d] && [d][1..] == [];
    var st1 := Observe(hash, st, workspace, c);
    assert Play(hash, st1, c.workspace, [d]) == Play(hash, Observe(hash, st1, c.workspace, d), d.workspace, []);
  }

  /**
   A file renamed twice in one turn, by two commands, is reported as a rename from the intermediate
   path, which did not exist at the start of the turn; the original path is not reported at all.
   */
  lemma ChainedRenameExample(v: Vault, a: Path, b: Path, c: Path, data: Bytes, rows: seq<Change>)
    requires a != b && a != c && b != c
    ensures var calls := [RenameCall(map[a := data], map[b := data]), RenameCall(map[b := data], map[c := data])];
      var (st, now) := Play(v.hash, FRESH, map[a := data], calls);
      && HonestRun(map[a := data], calls)
      && !OldsAreOrigins(v.hash, st.files, OriginsOf(v.hash, FRESH, map[], map[a := data], calls))
      && st == State(map[c := RenamedEntry(b, data)], None, None, true)
      && now == map[c := data]
      && (Reports(v, st.files, rows) ==> !Describes(v, rows, View(v.hash, map[a := data]), View(v.hash, now)))
  {
    var w0: Files, w1: Files, w2: Files := map[a := data], map[b := data], map[c := data];
    PlayTwo(v.hash, FRESH, w0, RenameCall(w0, w1), RenameCall(w1, w2));
    RenameFolds(v.hash, map[], map[], a, b, data);
    RenameFolds(v.hash, map[b := RenamedEntry(a, data)], map[], b, c, data);
    TwoHonest(w0, RenameCall(w0, w1), RenameCall(w1, w2));
    RunFollowed(v.hash, FRESH, map[], w0, w0, [RenameCall(w0, w1), RenameCall(w1, w2)]);
    GhostOrigin(v.hash, map[c := RenamedEntry(b, data)],
                OriginsOf(v.hash, FRESH, map[], w0, [RenameCall(w0, w1), RenameCall(w1, w2)]), c, b, w0, w2);
    GhostRename(v, map[c := RenamedEntry(b, data)], rows, c, b, View(v.hash, w0), View(v.hash, w2));
  }

  /** A tool that writes one file, between scans that nobody reads. */
  function WriteCall(p: Path, from: Files, data: Bytes): Call {
    Call(Prepared(false, true, false, Some(p)), true, from[p := data], Scan(from, true), Scan(from[p := data], true),
         None, None)
  }

  /**
   A file that is renamed by a command and then written anew under its old path is reported as a rename
   and a creation, although the old path exists at both ends of the turn.
   */
  lemma RecreatedPathExample(v: Vault, a: Path, b: Path, data: Bytes, other: Bytes, rows: seq<Change>)
    requires a != b
    ensures var w0: Files, w1: Files := map[a := data], map[b := data];
      var (st, now) := Play(v.hash, FRESH, w0, [RenameCall(w0, w1), WriteCall(a, w1, other)]);
      && HonestRun(w0, [RenameCall(w0, w1), WriteCall(a, w1, other)])
      && st == State(map[b := RenamedEntry(a, data), a := Entry(None, Some(other), false, None)], None, None, true)
      && now == map[b := data, a := other]
      && RenamesLanded(st.files, now) && !OldEndsGone(st.files, now)
      && (Reports(v, st.files, rows) ==> !Describes(v, rows, View(v.hash, w0), View(v.hash, now)))
  {
    var w0: Files, w1: Files := map[a := data], map[b := data];
    var c, d := RenameCall(w0, w1), WriteCall(a, w1, other);
    PlayTwo(v.hash, FRESH, w0, c, d);
    RenameFolds(v.hash, map[], map[], a, b, data);
    TwoHonest(w0, c, d);
    var (st, now) := Play(v.hash, FRESH, w0, [c, d]);
    assert st.files[b].oldPath == Some(a);
    ReturnedRename(v, st.files, rows, b, a, View(v.hash, w0), View(v.hash, now));
  }

  lemma TwoHonest(w0: Files, c: Call, d: Call)
    requires Honest(w0, c) && Honest(c.workspace, d)
    ensures HonestRun(w0, [c, d])
  {
    assert [c, d][1..] == [d] && [d][1..] == [];
    assert HonestRun(d.workspace, []) && HonestRun(c.workspace, [d]);
  }

  /** A reported rename from a path that still exists is not a truthful report. */
  lemma ReturnedRename(v: Vault, files: map<Path, Entry>, rows: seq<Change>, n: Path, o: Path,
                       before: map<Path, Digest>, after: map<Path, Digest>)
    requires n in files && files[n].oldPath == Some(o) && o in after
    ensures Reports(v, files, rows) ==> !Describes(v, rows, before, after)
  {
    if Reports(v, files, rows) {
      var i :| 0 <= i < |rows| && rows[i].path == Some(n);
      assert !Faithful(v, rows[i], before, after);
    }
  }

  lemma GhostOrigin(hash: Bytes -> Digest, files: map<Path, Entry>, org: Origins, n: Path, o: Path, start: Files,
                    now: Files)
    requires Follows(hash, files, org, start, now) && n in files && files[n].oldPath == Some(o) && o !in start
    ensures !OldsAreOrigins(hash, files, org)
  {
    OldsAreOriginsIff(hash, files, org, start, now);
    assert FollowedAt(hash, files, org, start, now, n);
  }

  /** A reported rename from a path that did not exist at the start is not a truthful report. */
  lemma GhostRename(v: Vault, files: map<Path, Entry>, rows: seq<Change>, n: Path, o: Path, before: map<Path, Digest>,
                    after: map<Path, Digest>)
    requires Reports(v, files, rows) ==> n in files && files[n].oldPath == Some(o)
    requires o !in before
    ensures Reports(v, files, rows) ==> !Describes(v, rows, before, after)
  {
    if Reports(v, files, rows) {
      var i :| 0 <= i < |rows| && rows[i].path == Some(n);
      assert !Faithful(v, rows[i], before, after);
    }
  }

  lemma SingleMove(hash: Bytes -> Digest, files: map<Path, Entry>, o: Path, n: Path)
    requires o != n && files.Keys == {o, n}
    requires IsDeletion(files[o]) && IsCreation(files[n]) && hash(files[o].before.value) == hash(files[n].after.value)
    ensures Moved(hash, files, o, n) && IsNewEnd(hash, files, n)
    ensures Coalesced(hash, files) == map[n := Folded(files, o, n)]
  {
    var d := hash(files[o].before.value);
    assert DeletionsOf(hash, files, d) == {o};
    assert CreationsOf(hash, files, d) == {n};
    assert Moved(hash, files, o, n);
    MovedEnds(hash, files, o, n);
  }
}
