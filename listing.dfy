/** `get_project_list`: the cached projects sorted by path, one line each.
    Python's `sorted` with a key is a stable sort; here it is the insertion sort
    that places each project after every project whose path is not greater. */
module Listing {
  import opened Common
  import opened Text
  import opened Cache

  /** Projects in non-decreasing order of path. This is `SortedStrings` of
      their paths (`SortedByPathIsSortedPaths`); it is stated on the projects
      directly so that the sorting proofs index projects rather than the
      recursively built `Paths`; for the same reason `SortedTail` is the
      counterpart on projects of `Text.SortedTailStrings`. */
  predicate SortedByPath(ps: seq<CachedProject>) {
    forall i, j :: 0 <= i < j < |ps| ==> StrLessEq(ps[i].pathWithNamespace, ps[j].pathWithNamespace)
  }

  /** The paths of the projects, in order. */
  function Paths(ps: seq<CachedProject>): seq<string> {
    if ps == [] then [] else [ps[0].pathWithNamespace] + Paths(ps[1..])
  }

  /** The i-th path is the path of the i-th project. */
  lemma {:induction false} PathsAt(ps: seq<CachedProject>)
    ensures |Paths(ps)| == |ps|
    ensures forall i :: 0 <= i < |ps| ==> Paths(ps)[i] == ps[i].pathWithNamespace
  {
    if ps != [] {
      PathsAt(ps[1..]);
    }
  }

  /** Sorted by path means the sequence of paths is sorted. */
  lemma SortedByPathIsSortedPaths(ps: seq<CachedProject>)
    ensures SortedByPath(ps) <==> SortedStrings(Paths(ps))
  {
    PathsAt(ps);
  }

  /** The projects whose path is `key`, in order. */
  function WithPath(ps: seq<CachedProject>, key: string): seq<CachedProject> {
    if ps == [] then []
    else (if ps[0].pathWithNamespace == key then [ps[0]] else []) + WithPath(ps[1..], key)
  }

  lemma {:induction false} WithPathAppend(a: seq<CachedProject>, b: seq<CachedProject>, key: string)
    ensures WithPath(a + b, key) == WithPath(a, key) + WithPath(b, key)
  {
    if a == [] {
      assert a + b == b;
    } else {
      assert (a + b)[0] == a[0] && (a + b)[1..] == a[1..] + b;
      WithPathAppend(a[1..], b, key);
    }
  }

  /** Places `p` after the leading run of projects whose path is not greater. */
  function Insert(p: CachedProject, s: seq<CachedProject>): seq<CachedProject> {
    if s == [] then [p]
    else if StrLessEq(s[0].pathWithNamespace, p.pathWithNamespace) then [s[0]] + Insert(p, s[1..])
    else [p] + s
  }

  /** Inserting adds `p` and loses nothing. */
  lemma {:induction false} InsertPermutation(p: CachedProject, s: seq<CachedProject>)
    ensures multiset(Insert(p, s)) == multiset(s) + multiset{p}
  {
    if s != [] && StrLessEq(s[0].pathWithNamespace, p.pathWithNamespace) {
      InsertPermutation(p, s[1..]);
      assert s == [s[0]] + s[1..];
    }
  }

  /** A project no greater than any project of a sorted sequence can go in front. */
  lemma SortedCons(x: CachedProject, r: seq<CachedProject>)
    requires SortedByPath(r)
    requires forall k :: 0 <= k < |r| ==> StrLessEq(x.pathWithNamespace, r[k].pathWithNamespace)
    ensures SortedByPath([x] + r)
  {
    var xr := [x] + r;
    forall i, j | 0 <= i < j < |xr|
      ensures StrLessEq(xr[i].pathWithNamespace, xr[j].pathWithNamespace)
    {
      if i == 0 {
        assert xr[j] == r[j - 1];
      } else {
        assert xr[i] == r[i - 1] && xr[j] == r[j - 1];
      }
    }
  }

  /** The tail of a sorted sequence is sorted, and its head is a lower bound. */
  lemma SortedTail(s: seq<CachedProject>)
    requires SortedByPath(s) && s != []
    ensures SortedByPath(s[1..])
    ensures forall k :: 0 <= k < |s[1..]| ==> StrLessEq(s[0].pathWithNamespace, s[1..][k].pathWithNamespace)
  {
    var t := s[1..];
    forall i, j | 0 <= i < j < |t|
      ensures StrLessEq(t[i].pathWithNamespace, t[j].pathWithNamespace)
    {
      assert t[i] == s[i + 1] && t[j] == s[j + 1];
    }
    forall k | 0 <= k < |t|
      ensures StrLessEq(s[0].pathWithNamespace, t[k].pathWithNamespace)
    {
      assert t[k] == s[k + 1];
    }
  }

  /** A lower bound of `t` and of `p` bounds every rearrangement of `t + [p]`. */
  lemma LowerBound(x: CachedProject, t: seq<CachedProject>, p: CachedProject, r: seq<CachedProject>)
    requires multiset(r) == multiset(t) + multiset{p}
    requires StrLessEq(x.pathWithNamespace, p.pathWithNamespace)
    requires forall k :: 0 <= k < |t| ==> StrLessEq(x.pathWithNamespace, t[k].pathWithNamespace)
    ensures forall k :: 0 <= k < |r| ==> StrLessEq(x.pathWithNamespace, r[k].pathWithNamespace)
  {
    forall k | 0 <= k < |r|
      ensures StrLessEq(x.pathWithNamespace, r[k].pathWithNamespace)
    {
      assert r[k] in multiset(r);
      if r[k] != p {
        assert r[k] in multiset(t);
        var m :| 0 <= m < |t| && t[m] == r[k];
      }
    }
  }

  lemma {:induction false} InsertSorted(p: CachedProject, s: seq<CachedProject>)
    requires SortedByPath(s)
    ensures SortedByPath(Insert(p, s))
  {
    if s == [] {
      assert Insert(p, s) == [p];
    } else if StrLessEq(s[0].pathWithNamespace, p.pathWithNamespace) {
      var t := s[1..];
      SortedTail(s);
      InsertSorted(p, t);
      InsertPermutation(p, t);
      LowerBound(s[0], t, p, Insert(p, t));
      SortedCons(s[0], Insert(p, t));
      assert Insert(p, s) == [s[0]] + Insert(p, t);
    } else {
      StrLessEqTotal(s[0].pathWithNamespace, p.pathWithNamespace);
      SortedTail(s);
      forall k | 0 <= k < |s|
        ensures StrLessEq(p.pathWithNamespace, s[k].pathWithNamespace)
      {
        if k > 0 {
          assert s[k] == s[1..][k - 1];
          StrLessEqTransitive(p.pathWithNamespace, s[0].pathWithNamespace, s[k].pathWithNamespace);
        }
      }
      SortedCons(p, s);
      assert Insert(p, s) == [p] + s;
    }
  }

  /** In a sorted sequence, `p` lands after every project with the same path. */
  lemma {:induction false} InsertWithPath(p: CachedProject, s: seq<CachedProject>, key: string)
    requires SortedByPath(s)
    ensures WithPath(Insert(p, s), key)
         == WithPath(s, key) + (if p.pathWithNamespace == key then [p] else [])
  {
    if s == [] {
      WithPathCons(p, [], key);
    } else if StrLessEq(s[0].pathWithNamespace, p.pathWithNamespace) {
      var t := s[1..];
      SortedTail(s);
      InsertWithPath(p, t, key);
      assert Insert(p, s) == [s[0]] + Insert(p, t);
      assert s == [s[0]] + t;
      WithPathConsStep(s[0], t, Insert(p, t), key, if p.pathWithNamespace == key then [p] else []);
    } else {
      assert Insert(p, s) == [p] + s;
      WithPathCons(p, s, key);
      if p.pathWithNamespace == key {
        NoneWithSmallerPath(s, key);
      }
    }
  }

  /** Putting the same project in front of two sequences keeps a relation
      between their projects with path `key`. */
  lemma WithPathConsStep(x: CachedProject, t: seq<CachedProject>, r: seq<CachedProject>,
                         key: string, e: seq<CachedProject>)
    requires WithPath(r, key) == WithPath(t, key) + e
    ensures WithPath([x] + r, key) == WithPath([x] + t, key) + e
  {
    WithPathCons(x, r, key);
    WithPathCons(x, t, key);
  }

  lemma WithPathCons(x: CachedProject, xs: seq<CachedProject>, key: string)
    ensures WithPath([x] + xs, key) == (if x.pathWithNamespace == key then [x] else []) + WithPath(xs, key)
  {
    assert ([x] + xs)[0] == x && ([x] + xs)[1..] == xs;
  }

  /** A path that sorts before the first of a sorted sequence occurs nowhere in it. */
  lemma {:induction false} NoneWithSmallerPath(s: seq<CachedProject>, key: string)
    requires SortedByPath(s) && s != [] && !StrLessEq(s[0].pathWithNamespace, key)
    ensures WithPath(s, key) == []
  {
    if |s| > 1 {
      var t := s[1..];
      SortedTail(s);
      assert !StrLessEq(t[0].pathWithNamespace, key) by {
        if StrLessEq(t[0].pathWithNamespace, key) {
          StrLessEqTransitive(s[0].pathWithNamespace, t[0].pathWithNamespace, key);
        }
      }
      NoneWithSmallerPath(t, key);
    }
    StrLessEqReflexive(key);
  }

  /** `sorted(projects, key=lambda x: x.path_with_namespace)`. */
  function SortByPath(ps: seq<CachedProject>): (r: seq<CachedProject>)
    ensures SortedByPath(r)
    ensures multiset(r) == multiset(ps)
  {
    if ps == [] then []
    else
      var init, last := ps[..|ps| - 1], ps[|ps| - 1];
      assert ps == init + [last];
      var sorted := SortByPath(init);
      InsertSorted(last, sorted);
      InsertPermutation(last, sorted);
      Insert(last, sorted)
  }

  /** The sort is stable: projects sharing a path keep their cached order. */
  lemma {:induction false} SortByPathStable(ps: seq<CachedProject>, key: string)
    ensures WithPath(SortByPath(ps), key) == WithPath(ps, key)
  {
    if ps != [] {
      var init, last := ps[..|ps| - 1], ps[|ps| - 1];
      assert ps == init + [last];
      SortByPathStable(init, key);
      InsertWithPath(last, SortByPath(init), key);
      WithPathAppend(init, [last], key);
    }
  }

  /** A path occurs among the paths as often as projects carry it. */
  lemma {:induction false} PathsCount(ps: seq<CachedProject>, key: string)
    ensures multiset(Paths(ps))[key] == |WithPath(ps, key)|
  {
    if ps != [] {
      PathsCount(ps[1..], key);
    }
  }

  /** Sorting keeps every path as often as it occurs. */
  lemma SortByPathPaths(ps: seq<CachedProject>)
    ensures multiset(Paths(SortByPath(ps))) == multiset(Paths(ps))
  {
    forall key
      ensures multiset(Paths(SortByPath(ps)))[key] == multiset(Paths(ps))[key]
    {
      PathsCount(SortByPath(ps), key);
      PathsCount(ps, key);
      SortByPathStable(ps, key);
    }
  }

  /** Python truthiness of an optional string: present and non-empty. */
  predicate Truthy(d: Option<string>) {
    d.Some? && d.value != []
  }

  /** The description as printed: the text, or nothing when absent. */
  function DescriptionText(d: Option<string>): string {
    match d
    case Some(t) => t
    case None => ""
  }

  /** The line printed for one project. The branch that appends the
      description is guarded by `and False`, so only the path is ever printed. */
  function Line(p: CachedProject): (line: string)
    ensures line == p.pathWithNamespace
  {
    if Truthy(p.description) && false then p.pathWithNamespace + ": " + DescriptionText(p.description)
    else p.pathWithNamespace
  }

  /** The lines printed for the projects, in order. */
  function Lines(ps: seq<CachedProject>): (r: seq<string>)
    ensures |r| == |ps|
  {
    if ps == [] then [] else [Line(ps[0])] + Lines(ps[1..])
  }

  lemma {:induction false} LinesArePaths(ps: seq<CachedProject>)
    ensures Lines(ps) == Paths(ps)
  {
    if ps != [] {
      LinesArePaths(ps[1..]);
    }
  }

  /** `get_project_list`: the path of every cached project, in non-decreasing
      order, each path as often as it occurs in the cache. */
  function ProjectList(cache: AppCache): (lines: seq<string>)
    ensures SortedStrings(lines)
    ensures multiset(lines) == multiset(Paths(cache.projects))
  {
    var sorted := SortByPath(cache.projects);
    LinesArePaths(sorted);
    SortedByPathIsSortedPaths(sorted);
    SortByPathPaths(cache.projects);
    Lines(sorted)
  }

  /** The listing depends only on which paths are cached, not on the order in
      which the snapshot holds them. */
  lemma ProjectListIgnoresOrder(a: AppCache, b: AppCache)
    requires multiset(Paths(a.projects)) == multiset(Paths(b.projects))
    ensures ProjectList(a) == ProjectList(b)
  {
    SortedStringsUnique(ProjectList(a), ProjectList(b));
  }
}
