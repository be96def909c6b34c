/**
 * Slash-separated path strings: which paths lie below a directory, the path
 * relative to it, re-rooting under another directory, splitting into
 * segments, and the chain of parent directories.
 */
module Paths {
  import opened Wrappers

  const Separator: char := '/'

  /** What every path below directory `d` starts with: `d` followed by one separator. */
  function DirPrefix(d: string): (r: string)
    ensures |r| > 0 && r[|r| - 1] == Separator
    ensures r == d || r == d + [Separator]
  {
    if d != [] && d[|d| - 1] == Separator then d else d + [Separator]
  }

  /** `p` names something strictly inside directory `d` (at any depth). */
  predicate Below(p: string, d: string)
  {
    var pre := DirPrefix(d);
    |pre| < |p| && p[..|pre|] == pre
  }

  lemma {:induction false} BelowTransitive(p: string, c: string, d: string)
    requires Below(p, c) && Below(c, d)
    ensures Below(p, d)
  {
    var pc, pd := DirPrefix(c), DirPrefix(d);
    assert p[..|c|] == c by {
      assert p[..|pc|][..|c|] == pc[..|c|];
    }
    assert p[..|pd|] == c[..|pd|];
  }

  /** The location of `p` relative to directory `d`. */
  function Rel(p: string, d: string): (r: string)
    requires Below(p, d)
    ensures |r| > 0 && DirPrefix(d) + r == p
  {
    p[|DirPrefix(d)|..]
  }

  /** The path at the same relative location as `p` has under `root`, but under `out`. */
  function Rebase(p: string, root: string, out: string): (r: string)
    requires Below(p, root)
    ensures Below(r, out)
    ensures Rel(r, out) == Rel(p, root)
  {
    var r := DirPrefix(out) + Rel(p, root);
    assert r[..|DirPrefix(out)|] == DirPrefix(out);
    r
  }

  /** Re-rooting back undoes re-rooting. */
  lemma RebaseRoundTrip(p: string, root: string, out: string)
    requires Below(p, root)
    ensures Rebase(Rebase(p, root, out), out, root) == p
  {
  }

  /** Two different paths below the same root are never sent to the same place. */
  lemma RebaseInjective(p: string, q: string, root: string, out: string)
    requires Below(p, root) && Below(q, root)
    requires Rebase(p, root, out) == Rebase(q, root, out)
    ensures p == q
  {
    assert Rel(p, root) == Rel(q, root);
  }

  /** Position of the first separator in `s`, or `|s|` when there is none. */
  function IndexOfSeparator(s: string): (i: nat)
    ensures i <= |s|
    ensures i < |s| ==> s[i] == Separator
    ensures forall k :: 0 <= k < i ==> s[k] != Separator
  {
    if s == [] then 0
    else if s[0] == Separator then 0
    else 1 + IndexOfSeparator(s[1..])
  }

  /** The pieces of `p` between separators, as `strings.Split(p, "/")` gives them. */
  function Segments(p: string): (r: seq<string>)
    ensures |r| >= 1
    ensures forall k :: 0 <= k < |r| ==> Separator !in r[k]
    ensures forall k, c :: 0 <= k < |r| && c in r[k] ==> c in p
    decreases |p|
  {
    var i := IndexOfSeparator(p);
    if i == |p| then [p]
    else
      var rest := Segments(p[i + 1..]);
      assert forall k, c :: 0 <= k < |rest| && c in rest[k] ==> c in p by {
        forall k, c | 0 <= k < |rest| && c in rest[k]
          ensures c in p
        {
          assert c in p[i + 1..];
        }
      }
      [p[..i]] + rest
  }

  /** Glue segments back together with one separator between each two. */
  function JoinSegments(segs: seq<string>): string
    requires |segs| >= 1
    decreases |segs|
  {
    if |segs| == 1 then segs[0] else segs[0] + [Separator] + JoinSegments(segs[1..])
  }

  /** Splitting loses nothing: joining the segments gives the path back. */
  lemma {:induction false} JoinSegmentsOfSegments(p: string)
    ensures JoinSegments(Segments(p)) == p
    decreases |p|
  {
    var i := IndexOfSeparator(p);
    if i < |p| {
      JoinSegmentsOfSegments(p[i + 1..]);
      assert p == p[..i] + [Separator] + p[i + 1..];
    }
  }

  /** Joining separator-free segments and splitting again gives the segments back. */
  lemma {:induction false} SegmentsOfJoinSegments(segs: seq<string>)
    requires |segs| >= 1
    requires forall k :: 0 <= k < |segs| ==> Separator !in segs[k]
    ensures Segments(JoinSegments(segs)) == segs
    decreases |segs|
  {
    var p := JoinSegments(segs);
    if |segs| == 1 {
      assert IndexOfSeparator(p) == |p|;
    } else {
      var rest := JoinSegments(segs[1..]);
      assert p == segs[0] + [Separator] + rest;
      assert IndexOfSeparator(p) == |segs[0]| by {
        IndexOfSeparatorAt(segs[0], rest);
      }
      assert p[..|segs[0]|] == segs[0];
      assert p[|segs[0]| + 1..] == rest;
      SegmentsOfJoinSegments(segs[1..]);
    }
  }

  lemma {:induction false} IndexOfSeparatorAt(a: string, b: string)
    requires Separator !in a
    ensures IndexOfSeparator(a + [Separator] + b) == |a|
  {
    var s := a + [Separator] + b;
    assert forall k :: 0 <= k < |a| ==> s[k] == a[k];
    assert s[|a|] == Separator;
  }

  /** Position of the last separator in `p`, or -1 when there is none. */
  function LastSeparator(p: string): (i: int)
    ensures -1 <= i < |p|
    ensures i >= 0 ==> p[i] == Separator
    ensures forall k :: i < k < |p| ==> p[k] != Separator
    decreases |p|
  {
    if p == [] then -1
    else if p[|p| - 1] == Separator then |p| - 1
    else LastSeparator(p[..|p| - 1])
  }

  /** The directory holding `p` (`filepath.Dir`), or None for a top-level relative name and for the root. */
  function Parent(p: string): (r: Option<string>)
    ensures r.Some? ==> |r.value| < |p|
  {
    var i := LastSeparator(p);
    if i < 0 then None
    else if i == 0 then (if |p| == 1 then None else Some([Separator]))
    else Some(p[..i])
  }

  /** Every directory on the way from `p` up to the top. */
  function Ancestors(p: string): (r: set<string>)
    ensures forall a :: a in r ==> |a| < |p|
    decreases |p|
  {
    match Parent(p)
    case None => {}
    case Some(d) => {d} + Ancestors(d)
  }

  /** The ancestors of an ancestor are ancestors too. */
  lemma {:induction false} AncestorsTransitive(p: string, a: string)
    requires a in Ancestors(p)
    ensures Ancestors(a) <= Ancestors(p)
    decreases |p|
  {
    var d := Parent(p).value;
    if a != d {
      AncestorsTransitive(d, a);
    }
  }
}
