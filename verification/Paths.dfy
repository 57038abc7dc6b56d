/**
 Workspace-relative paths in normalised form: parts joined by '/'.
 Sorting is by code point, as the source's `sorted` on strings is.
 */
module Paths {
  type Path = string

  predicate Before(a: string, b: string) {
    if b == [] then false
    else if a == [] then true
    else a[0] < b[0] || (a[0] == b[0] && Before(a[1..], b[1..]))
  }

  lemma {:induction false} BeforeTotal(a: string, b: string)
    ensures Before(a, b) || a == b || Before(b, a)
  {
    if a != [] && b != [] && a[0] == b[0] {
      BeforeTotal(a[1..], b[1..]);
      assert a == [a[0]] + a[1..] && b == [b[0]] + b[1..];
    }
  }

  lemma {:induction false} BeforeTransitive(a: string, b: string, c: string)
    requires Before(a, b) && Before(b, c)
    ensures Before(a, c)
  {
    if a != [] && a[0] == b[0] == c[0] {
      BeforeTransitive(a[1..], b[1..], c[1..]);
    }
  }

  lemma {:induction false} BeforeIrreflexive(a: string)
    ensures !Before(a, a)
  {
    if a != [] {
      BeforeIrreflexive(a[1..]);
    }
  }

  /** The components of a path, split at every '/'. */
  function Parts(p: Path): (parts: seq<string>)
    ensures |parts| > 0
  {
    if p == [] then [""]
    else if p[0] == '/' then [""] + Parts(p[1..])
    else var rest := Parts(p[1..]); [[p[0]] + rest[0]] + rest[1..]
  }

  /** `child` lies inside a directory named `p`. */
  predicate Nested(p: Path, child: Path) {
    |Parts(p)| < |Parts(child)| && Parts(child)[..|Parts(p)|] == Parts(p)
  }

  /** A directory sorts before everything inside it, so one ordered pass sees every nested pair. */
  lemma {:induction false} NestedSortsLater(p: Path, child: Path)
    requires Nested(p, child)
    ensures Before(p, child)
  {
    var n := |Parts(p)|;
    assert Parts(child)[..n][0] == Parts(child)[0] == Parts(p)[0];
    if p != [] && child != [] {
      var rp, rc := Parts(p[1..]), Parts(child[1..]);
      if p[0] == '/' {
        assert child[0] == '/';
        assert rp == Parts(p)[1..] && rc == Parts(child)[1..];
        assert rc[..|rp|] == Parts(child)[..n][1..];
        NestedSortsLater(p[1..], child[1..]);
      } else {
        assert Parts(p)[0][0] == p[0];
        assert child[0] == p[0];
        assert rp[0] == Parts(p)[0][1..] == Parts(child)[0][1..] == rc[0];
        assert rp[1..] == Parts(p)[1..] == Parts(child)[..n][1..] == rc[1..][..n - 1];
        assert rc[..n] == [rc[0]] + rc[1..][..n - 1];
        assert rp == [rp[0]] + rp[1..];
        NestedSortsLater(p[1..], child[1..]);
      }
    }
  }

  ghost predicate StrictlySorted(s: seq<Path>) {
    forall i, j :: 0 <= i < j < |s| ==> Before(s[i], s[j])
  }

  /** Puts `p` at its place in a sorted list that does not hold it yet. */
  method InsertSorted(s: seq<Path>, p: Path) returns (r: seq<Path>)
    requires StrictlySorted(s) && p !in s
    ensures StrictlySorted(r)
    ensures forall q :: q in r <==> q in s || q == p
  {
    var k := 0;
    while k < |s| && Before(s[k], p)
      invariant 0 <= k <= |s|
      invariant forall i :: 0 <= i < k ==> Before(s[i], p)
    {
      k := k + 1;
    }
    forall j | k <= j < |s| ensures Before(p, s[j]) {
      BeforeTotal(s[k], p);
      if k < j { BeforeTransitive(p, s[k], s[j]); }
    }
    r := s[..k] + [p] + s[k..];
    assert forall q :: q in s <==> q in s[..k] || q in s[k..] by {
      assert s == s[..k] + s[k..];
    }
  }

  /** `sorted(set)`. */
  method Sorted(paths: set<Path>) returns (r: seq<Path>)
    ensures StrictlySorted(r)
    ensures forall p :: p in r <==> p in paths
  {
    r := [];
    var todo := paths;
    while todo != {}
      invariant todo <= paths
      invariant StrictlySorted(r)
      invariant forall p :: p in r <==> p in paths - todo
      decreases |todo|
    {
      var p :| p in todo;
      r := InsertSorted(r, p);
      todo := todo - {p};
    }
  }
}
