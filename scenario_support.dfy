/**
 * Small facts the test scenarios are assembled from. Each is stated over
 * its parameters, so that the scenarios can apply it to concrete paths
 * without the verifier unfolding the path functions on literal strings.
 */
module ScenarioSupport {
  import opened Wrappers
  import opened Order
  import opened Paths
  import opened Glob
  import opened FileSystem
  import opened Walk

  /** `i` is the last separator of `p` when `p[i]` is one and none follows. */
  lemma LastSeparatorIs(p: string, i: nat)
    requires i < |p| && p[i] == Separator
    requires forall k :: i < k < |p| ==> p[k] != Separator
    ensures LastSeparator(p) == i
  {
  }

  /** A name without a separator is top-level: it has no parent directory. */
  lemma TopLevel(p: string)
    requires forall k :: 0 <= k < |p| ==> p[k] != Separator
    ensures Ancestors(p) == {}
  {
    assert LastSeparator(p) < 0;
  }

  /** The ancestors of `p` are its parent and the parent's ancestors. */
  lemma AncestorsAt(p: string, i: nat)
    requires 0 < i < |p| && p[i] == Separator
    requires forall k :: i < k < |p| ==> p[k] != Separator
    ensures Ancestors(p) == {p[..i]} + Ancestors(p[..i])
  {
    LastSeparatorIs(p, i);
  }

  /** A name without separators, placed in the directory `d`, has `d` and the ancestors of `d` as its ancestors. */
  lemma AncestorsOfChild(d: string, name: string)
    requires d != [] && forall k :: 0 <= k < |name| ==> name[k] != Separator
    ensures Ancestors(d + [Separator] + name) == {d} + Ancestors(d)
  {
    var p := d + [Separator] + name;
    assert p[..|d|] == d;
    forall k | |d| < k < |p|
      ensures p[k] != Separator
    {
      assert p[k] == name[k - |d| - 1];
    }
    AncestorsAt(p, |d|);
  }

  /** Writing a new file whose directories all exist adds that file and nothing else. */
  lemma WriteNew(ns: Namespace, p: string, data: string, mode: nat)
    requires p != [] && p !in ns.dirs && p !in ns.files
    requires Ancestors(p) <= ns.dirs && Ancestors(p) !! ns.files.Keys
    ensures WithFile(ns, p, data, mode) == Namespace(ns.files[p := File(data, mode)], ns.dirs)
  {
    assert ns.dirs + Ancestors(p) == ns.dirs;
  }

  /** Writing a new file whose directories do not exist yet registers them. */
  lemma WriteNewBelow(ns: Namespace, p: string, data: string, mode: nat)
    requires p != [] && p !in ns.dirs && p !in ns.files
    requires Ancestors(p) !! ns.files.Keys
    ensures WithFile(ns, p, data, mode) == Namespace(ns.files[p := File(data, mode)], ns.dirs + Ancestors(p))
  {
  }

  lemma NoMatchByCount(pattern: string, path: string)
    requires |Segments(pattern)| != |Segments(path)|
    ensures !Matches(pattern, path)
  {
  }

  lemma NoMatchAt(pattern: string, path: string, k: nat)
    requires k < |Segments(pattern)| && k < |Segments(path)|
    requires !SegmentMatch(Segments(pattern)[k], Segments(path)[k])
    ensures !Matches(pattern, path)
  {
  }

  /** An absolute pattern of two names matches an absolute path of two names segment by segment. */
  lemma MatchThree(pattern: string, path: string)
    requires |Segments(pattern)| == 3 == |Segments(path)|
    requires Segments(path)[0] == Segments(pattern)[0] == []
    requires Segments(path)[1] != [] && Segments(path)[2] != []
    requires SegmentMatch(Segments(pattern)[1], Segments(path)[1])
    requires SegmentMatch(Segments(pattern)[2], Segments(path)[2])
    ensures Matches(pattern, path)
  {
    var ps, qs := Segments(pattern), Segments(path);
    forall k | 0 <= k < 3
      ensures (qs[k] == [] ==> ps[k] == []) && SegmentMatch(ps[k], qs[k])
    {
      if k == 0 {
        assert SegmentMatch([], []);
      }
    }
  }

  /** An absolute pattern of three names matches an absolute path of three names segment by segment. */
  lemma MatchFour(pattern: string, path: string)
    requires |Segments(pattern)| == 4 == |Segments(path)|
    requires Segments(path)[0] == Segments(pattern)[0] == []
    requires Segments(path)[1] != [] && Segments(path)[2] != [] && Segments(path)[3] != []
    requires SegmentMatch(Segments(pattern)[1], Segments(path)[1])
    requires SegmentMatch(Segments(pattern)[2], Segments(path)[2])
    requires SegmentMatch(Segments(pattern)[3], Segments(path)[3])
    ensures Matches(pattern, path)
  {
    var ps, qs := Segments(pattern), Segments(path);
    forall k | 0 <= k < 4
      ensures (qs[k] == [] ==> ps[k] == []) && SegmentMatch(ps[k], qs[k])
    {
      if k == 0 {
        assert SegmentMatch([], []);
      }
    }
  }

  /** `MatchThree` with the segments of both sides named. */
  lemma MatchThreeOf(pattern: string, path: string, p1: string, p2: string, n1: string, n2: string)
    requires Segments(pattern) == ["", p1, p2] && Segments(path) == ["", n1, n2]
    requires n1 != [] && n2 != []
    requires SegmentMatch(p1, n1) && SegmentMatch(p2, n2)
    ensures Matches(pattern, path)
  {
    MatchThree(pattern, path);
  }

  /** `MatchFour` with the segments of both sides named. */
  lemma MatchFourOf(pattern: string, path: string, p1: string, p2: string, p3: string, n1: string, n2: string, n3: string)
    requires Segments(pattern) == ["", p1, p2, p3] && Segments(path) == ["", n1, n2, n3]
    requires n1 != [] && n2 != [] && n3 != []
    requires SegmentMatch(p1, n1) && SegmentMatch(p2, n2) && SegmentMatch(p3, n3)
    ensures Matches(pattern, path)
  {
    MatchFour(pattern, path);
  }

  lemma MatchedByOne(ns: Namespace, pattern: string, m: string)
    ensures MatchedBySome(ns, [pattern], m) <==> m in ns.Entries() && Matches(pattern, m)
  {
    if m in ns.Entries() && Matches(pattern, m) {
      assert pattern in [pattern];
    }
  }

  lemma MatchedByTwo(ns: Namespace, p1: string, p2: string, m: string)
    ensures MatchedBySome(ns, [p1, p2], m) <==> m in ns.Entries() && (Matches(p1, m) || Matches(p2, m))
  {
    if m in ns.Entries() && Matches(p1, m) {
      assert p1 in [p1, p2];
    }
    if m in ns.Entries() && Matches(p2, m) {
      assert p2 in [p1, p2];
    }
  }

  /** Two patterns whose hits are `a` (by the first) and `b` (by the second) match those two entries and no others. */
  lemma MatchedExactlyTwo(ns: Namespace, p1: string, p2: string, a: string, b: string)
    requires a in ns.Entries() && b in ns.Entries()
    requires Matches(p1, a) && Matches(p2, b)
    requires forall e :: e in ns.Entries() && e != a && e != b ==> !Matches(p1, e) && !Matches(p2, e)
    ensures forall q :: MatchedBySome(ns, [p1, p2], q) <==> q == a || q == b
  {
    forall q
      ensures MatchedBySome(ns, [p1, p2], q) <==> q == a || q == b
    {
      MatchedByTwo(ns, p1, p2, q);
    }
  }

  /** Two patterns whose hits are `a` (by the first) and `b` (by the second) and nothing else glob to `[a, b]` when `a` sorts first. */
  lemma CombinedGlobOfTwo(ns: Namespace, p1: string, p2: string, a: string, b: string)
    requires a in ns.Entries() && b in ns.Entries() && Less(a, b)
    requires Matches(p1, a) && Matches(p2, b)
    requires forall e :: e in ns.Entries() && e != a && e != b ==> !Matches(p1, e) && !Matches(p2, e)
    ensures CombinedGlob(ns, [p1, p2]) == [a, b]
  {
    MatchedExactlyTwo(ns, p1, p2, a, b);
    var r := CombinedGlob(ns, [p1, p2]);
    assert forall q :: q in r <==> q == a || q == b;
    SortedTwo(r, a, b);
  }

  /** A pattern that hits the entry `m0` and no other entry matches `m0` alone. */
  lemma OnlyMatch(ns: Namespace, p: string, m0: string)
    requires m0 in ns.Entries() && Matches(p, m0)
    requires forall e :: e in ns.Entries() && e != m0 ==> !Matches(p, e)
    ensures forall m :: MatchedBySome(ns, [p], m) <==> m == m0
  {
    forall m
      ensures MatchedBySome(ns, [p], m) <==> m == m0
    {
      MatchedByOne(ns, p, m);
    }
  }

  /** When the match list is the single entry `m0`, a file is selected unless it is `m0` or lies below it. */
  lemma SelectedWithOneMatch(ns: Namespace, dir: string, patterns: seq<string>, m0: string, f: string)
    requires forall m :: MatchedBySome(ns, patterns, m) <==> m == m0
    ensures Selected(ns, dir, patterns, f) <==> f in ns.files && Below(f, dir) && f != m0 && !Below(f, m0)
  {
    assert MatchedBySome(ns, patterns, m0);
  }

  /** With no exclusion patterns every file below the directory is selected. */
  lemma SelectedWithoutExcludes(ns: Namespace, dir: string, f: string)
    ensures Selected(ns, dir, [], f) <==> f in ns.files && Below(f, dir)
  {
  }

  /** A strictly sorted sequence holding exactly `a` and `b`, with `a` first in the order, is `[a, b]`. */
  lemma SortedTwo(r: seq<string>, a: string, b: string)
    requires StrictlySorted(r) && Less(a, b)
    requires forall q :: q in r <==> q == a || q == b
    ensures r == [a, b]
  {
    var s := [a, b];
    assert StrictlySorted(s);
    forall q
      ensures q in r <==> q in s
    {
    }
    StrictlySortedUnique(r, s);
  }

  /** A strictly sorted sequence holding exactly `a`, `b` and `c`, in that order, is `[a, b, c]`. */
  lemma SortedThree(r: seq<string>, a: string, b: string, c: string)
    requires StrictlySorted(r) && Less(a, b) && Less(b, c)
    requires forall q :: q in r <==> q == a || q == b || q == c
    ensures r == [a, b, c]
  {
    var s := [a, b, c];
    LessTransitive(a, b, c);
    assert StrictlySorted(s);
    forall q
      ensures q in r <==> q in s
    {
    }
    StrictlySortedUnique(r, s);
  }

  /** Two jobs named `a` and `b`, empty and re-rooted from `dir` to `outDir`, spelled out. */
  lemma JobsOfTwo(jobs: seq<Job>, dir: string, outDir: string, a: string, b: string)
    requires Names(jobs) == [a, b]
    requires forall k :: 0 <= k < |jobs| ==>
      Below(jobs[k].name, dir) && jobs[k].contents == [] && jobs[k].targetPath == Rebase(jobs[k].name, dir, outDir)
    ensures Below(a, dir) && Below(b, dir)
    ensures jobs == [Job(a, Rebase(a, dir, outDir), ""), Job(b, Rebase(b, dir, outDir), "")]
  {
    assert jobs[0].name == a && jobs[1].name == b;
  }

  /** Three jobs named `a`, `b` and `c`, empty and re-rooted from `dir` to `outDir`, spelled out. */
  lemma JobsOfThree(jobs: seq<Job>, dir: string, outDir: string, a: string, b: string, c: string)
    requires Names(jobs) == [a, b, c]
    requires forall k :: 0 <= k < |jobs| ==>
      Below(jobs[k].name, dir) && jobs[k].contents == [] && jobs[k].targetPath == Rebase(jobs[k].name, dir, outDir)
    ensures Below(a, dir) && Below(b, dir) && Below(c, dir)
    ensures jobs == [Job(a, Rebase(a, dir, outDir), ""), Job(b, Rebase(b, dir, outDir), ""), Job(c, Rebase(c, dir, outDir), "")]
  {
    assert jobs[0].name == a && jobs[1].name == b && jobs[2].name == c;
  }
}
