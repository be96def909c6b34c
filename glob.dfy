/**
 * The part of `filepath.Match` the exclusion patterns use: a pattern and a
 * path are compared segment by segment on `/`, and inside one segment `*`
 * matches any run of characters (a segment never holds a `/`). Every other
 * character of a pattern matches itself.
 */
module Glob {
  import opened Paths

  const Star: char := '*'

  /** Does pattern segment `pat` match the whole of path segment `name`? */
  predicate SegmentMatch(pat: string, name: string): (b: bool)
    ensures Star !in pat ==> (b <==> pat == name)
    decreases |pat| + |name|
  {
    if pat == [] then name == []
    else if pat[0] == Star then
      SegmentMatch(pat[1..], name) || (name != [] && SegmentMatch(pat, name[1..]))
    else
      assert Star !in pat ==> Star !in pat[1..] by {
        forall c | c in pat[1..] ensures c in pat { }
      }
      assert name != [] && name[0] == pat[0] && pat[1..] == name[1..] ==> pat == name by {
        if name != [] && name[0] == pat[0] && pat[1..] == name[1..] {
          assert pat == [pat[0]] + pat[1..] && name == [name[0]] + name[1..];
        }
      }
      name != [] && name[0] == pat[0] && SegmentMatch(pat[1..], name[1..])
  }

  /** Segment by segment: as many segments, each matched, and an empty path segment only by an empty one. */
  predicate SegmentsMatch(ps: seq<string>, qs: seq<string>)
  {
    |ps| == |qs| &&
    forall k :: 0 <= k < |ps| ==> (qs[k] == [] ==> ps[k] == []) && SegmentMatch(ps[k], qs[k])
  }

  /**
   * `pattern` matches `path`: as many segments, each matched. The empty
   * first segment of an absolute path is matched only by an empty pattern
   * segment: a glob lists named entries, never the root itself.
   */
  predicate Matches(pattern: string, path: string): (b: bool)
    ensures Star !in pattern ==> (b <==> pattern == path)
  {
    LiteralSegmentsMatch(pattern, path);
    SegmentsMatch(Segments(pattern), Segments(path))
  }

  /** A lone `*` matches every segment. */
  lemma {:induction false} StarMatchesAll(name: string)
    ensures SegmentMatch([Star], name)
    decreases |name|
  {
    if name != [] {
      StarMatchesAll(name[1..]);
    }
  }

  /** `lit*` with a literal `lit` matches exactly the segments that start with `lit` (as `o*` does). */
  lemma {:induction false} PrefixStar(lit: string, name: string)
    requires Star !in lit
    ensures SegmentMatch(lit + [Star], name) <==> |lit| <= |name| && name[..|lit|] == lit
    decreases |lit|
  {
    if lit == [] {
      assert lit + [Star] == [Star];
      StarMatchesAll(name);
    } else {
      assert (lit + [Star])[1..] == lit[1..] + [Star];
      if name != [] {
        PrefixStar(lit[1..], name[1..]);
        if |lit| <= |name| && name[..|lit|] == lit {
          assert name[1..][..|lit| - 1] == name[..|lit|][1..];
        }
        if name[0] == lit[0] && |lit[1..]| <= |name[1..]| && name[1..][..|lit[1..]|] == lit[1..] {
          assert name[..|lit|] == [name[0]] + name[1..][..|lit[1..]|];
        }
      }
    }
  }

  /** Without `*`, the segments of `pattern` match those of `path` exactly when the two are equal. */
  lemma LiteralSegmentsMatch(pattern: string, path: string)
    ensures Star !in pattern ==> (SegmentsMatch(Segments(pattern), Segments(path)) <==> pattern == path)
  {
    var ps, qs := Segments(pattern), Segments(path);
    if Star !in pattern && SegmentsMatch(ps, qs) {
      assert forall k :: 0 <= k < |ps| ==> Star !in ps[k];
      assert ps == qs;
      JoinSegmentsOfSegments(pattern);
      JoinSegmentsOfSegments(path);
    }
  }
}
