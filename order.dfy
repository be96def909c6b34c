/**
 * The byte-wise lexicographic order on strings that Go's `<` on strings and
 * `sort.Strings` use, and sorting a finite set of strings into that order.
 */
module Order {

  /** `a` sorts strictly before `b`. */
  predicate Less(a: string, b: string)
    decreases |a|
  {
    if a == [] then b != []
    else if b == [] then false
    else a[0] < b[0] || (a[0] == b[0] && Less(a[1..], b[1..]))
  }

  /** Every pair of positions is in strictly ascending order: sorted, with no duplicates. */
  predicate StrictlySorted(s: seq<string>)
  {
    forall i, j :: 0 <= i < j < |s| ==> Less(s[i], s[j])
  }

  lemma {:induction false} LessIrreflexive(a: string)
    ensures !Less(a, a)
    decreases |a|
  {
    if a != [] {
      LessIrreflexive(a[1..]);
    }
  }

  lemma {:induction false} LessTransitive(a: string, b: string, c: string)
    requires Less(a, b) && Less(b, c)
    ensures Less(a, c)
    decreases |a|
  {
    if a != [] && a[0] == b[0] && b[0] == c[0] {
      LessTransitive(a[1..], b[1..], c[1..]);
    }
  }

  lemma {:induction false} LessTotal(a: string, b: string)
    ensures a == b || Less(a, b) || Less(b, a)
    decreases |a|
  {
    if a != [] && b != [] && a[0] == b[0] {
      LessTotal(a[1..], b[1..]);
      if a[1..] == b[1..] {
        assert a == [a[0]] + a[1..] && b == [b[0]] + b[1..];
      }
    }
  }

  /** No element of `s` sorts before its member `m`. */
  predicate IsLeast(m: string, s: set<string>)
  {
    m in s && forall x :: x in s ==> !Less(x, m)
  }

  /** Adding `y` to a set whose least element is `m` makes `y` or `m` the least. */
  lemma LeastAfterAdding(m: string, rest: set<string>, y: string)
    requires IsLeast(m, rest)
    ensures IsLeast(y, rest + {y}) || IsLeast(m, rest + {y})
  {
    if Less(y, m) {
      forall x | x in rest + {y}
        ensures !Less(x, y)
      {
        if x == y {
          LessIrreflexive(y);
        } else if Less(x, y) {
          LessTransitive(x, y, m);
        }
      }
    }
  }

  /** A non-empty finite set of strings has an element no other element sorts before. */
  lemma {:induction false} MinimumExists(s: set<string>)
    requires s != {}
    ensures exists m :: IsLeast(m, s)
    decreases s
  {
    var y :| y in s;
    var rest := s - {y};
    assert s == rest + {y};
    if rest == {} {
      LessIrreflexive(y);
      assert IsLeast(y, s);
    } else {
      MinimumExists(rest);
      var m :| IsLeast(m, rest);
      LeastAfterAdding(m, rest, y);
    }
  }

  /** The least element of a non-empty set of strings. */
  function Min(s: set<string>): (m: string)
    requires s != {}
    ensures m in s
    ensures forall x :: x in s && x != m ==> Less(m, x)
  {
    MinimumExists(s);
    LessTotalAll();
    var m :| IsLeast(m, s);
    m
  }

  lemma LessTotalAll()
    ensures forall a, b :: a == b || Less(a, b) || Less(b, a)
  {
    forall a: string, b: string
      ensures a == b || Less(a, b) || Less(b, a)
    {
      LessTotal(a, b);
    }
  }

  /** The elements of `s` in ascending order, each exactly once. */
  function SortSet(s: set<string>): (r: seq<string>)
    ensures forall x :: x in r <==> x in s
    ensures StrictlySorted(r)
    ensures |r| == |s|
    decreases s
  {
    if s == {} then []
    else
      var m := Min(s);
      var rest := SortSet(s - {m});
      SortedCons(m, rest);
      [m] + rest
  }

  /** Putting an element that sorts before all of `r` in front keeps `r` strictly sorted. */
  lemma SortedCons(m: string, r: seq<string>)
    requires StrictlySorted(r)
    requires forall x :: x in r ==> Less(m, x)
    ensures StrictlySorted([m] + r)
  {
    var s := [m] + r;
    forall i, j | 0 <= i < j < |s|
      ensures Less(s[i], s[j])
    {
      assert s[j] == r[j - 1];
      if i > 0 {
        assert s[i] == r[i - 1];
      }
    }
  }

  /** A strictly sorted sequence holds each element at one position only. */
  lemma StrictlySortedDistinct(s: seq<string>, i: nat, j: nat)
    requires StrictlySorted(s) && i < |s| && j < |s| && i != j
    ensures s[i] != s[j]
  {
    if i < j {
      LessIrreflexive(s[i]);
    } else {
      LessIrreflexive(s[j]);
    }
  }

  /** A strictly sorted sequence is determined by its elements alone. */
  lemma {:induction false} StrictlySortedUnique(a: seq<string>, b: seq<string>)
    requires StrictlySorted(a) && StrictlySorted(b)
    requires forall x :: x in a <==> x in b
    ensures a == b
    decreases |a|
  {
    if a != [] && b != [] {
      if a[0] != b[0] {
        assert b[0] in b && a[0] in a;
        var i :| 0 <= i < |a| && a[i] == b[0];
        var j :| 0 <= j < |b| && b[j] == a[0];
        LessIrreflexive(a[0]);
        LessTransitive(a[0], b[0], a[0]);
        assert false;
      }
      forall x
        ensures x in a[1..] <==> x in b[1..]
      {
        if x in a[1..] {
          var i :| 1 <= i < |a| && a[i] == x;
          StrictlySortedDistinct(a, 0, i);
          assert x in b;
        }
        if x in b[1..] {
          var j :| 1 <= j < |b| && b[j] == x;
          StrictlySortedDistinct(b, 0, j);
          assert x in a;
        }
      }
      StrictlySortedUnique(a[1..], b[1..]);
      assert a == [a[0]] + a[1..] && b == [b[0]] + b[1..];
    } else if a != [] {
      ElementIn(a, 0);
      assert false;
    } else if b != [] {
      ElementIn(b, 0);
      assert false;
    }
  }

  lemma ElementIn(s: seq<string>, i: nat)
    requires i < |s|
    ensures s[i] in s
  {
  }

  /** A shared prefix does not change which of two strings sorts first. */
  lemma {:induction false} LessAfterCommonPrefix(p: string, a: string, b: string)
    requires Less(a, b)
    ensures Less(p + a, p + b)
    decreases |p|
  {
    if p == [] {
      assert p + a == a && p + b == b;
    } else {
      LessAfterCommonPrefix(p[1..], a, b);
      var x, y := p + a, p + b;
      assert x[0] == y[0];
      assert x[1..] == p[1..] + a && y[1..] == p[1..] + b;
    }
  }

}
