/**
 * The Python string operations the services rely on: `sep.join(parts)`, the
 * ordering of `str` values (lexicographic by code point) and
 * `sorted(set(xs))` for lists of strings, the unique strictly ascending list
 * holding exactly the elements of `xs`.
 */
module PyStrings {

  /** Python's `sep.join(parts)`. */
  function Join(parts: seq<string>, sep: string): (r: string)
    ensures |parts| == 1 ==> r == parts[0]
    ensures |parts| > 0 ==> |parts[0]| <= |r| && r[..|parts[0]|] == parts[0]
    ensures |parts| > 0 ==> |r| >= (|parts| - 1) * |sep|
  {
    if |parts| == 0 then "" else if |parts| == 1 then parts[0] else parts[0] + sep + Join(parts[1..], sep)
  }

  /** Joining one more part appends the separator and the part. */
  lemma {:induction false} JoinSnoc(parts: seq<string>, x: string, sep: string)
    requires |parts| > 0
    ensures Join(parts + [x], sep) == Join(parts, sep) + sep + x
    decreases |parts|
  {
    if |parts| > 1 {
      assert (parts + [x])[1..] == parts[1..] + [x];
      JoinSnoc(parts[1..], x, sep);
    }
  }

  /** A join of two or more parts contains the separator's first character. */
  lemma JoinHasSeparator(parts: seq<string>, sep: string)
    requires |parts| >= 2 && |sep| > 0
    ensures sep[0] in Join(parts, sep)
  {
    var j := Join(parts, sep);
    assert j == parts[0] + sep + Join(parts[1..], sep);
    assert j[|parts[0]|] == sep[0];
  }

  /** `a < b` on Python strings. */
  predicate Less(a: string, b: string)
    ensures |a| < |b| && a == b[..|a|] ==> Less(a, b)
  {
    if |a| == 0 then |b| > 0
    else if |b| == 0 then false
    else if a[0] == b[0] then Less(a[1..], b[1..])
    else a[0] < b[0]
  }

  lemma {:induction false} LessIrreflexive(a: string)
    ensures !Less(a, a)
  {
    if |a| > 0 {
      LessIrreflexive(a[1..]);
    }
  }

  lemma {:induction false} LessTransitive(a: string, b: string, c: string)
    requires Less(a, b) && Less(b, c)
    ensures Less(a, c)
  {
    if |a| > 0 && |b| > 0 && |c| > 0 && a[0] == b[0] && b[0] == c[0] {
      LessTransitive(a[1..], b[1..], c[1..]);
    }
  }

  lemma {:induction false} LessTotal(a: string, b: string)
    ensures a == b || Less(a, b) || Less(b, a)
  {
    if |a| > 0 && |b| > 0 && a[0] == b[0] {
      LessTotal(a[1..], b[1..]);
      if a[1..] == b[1..] {
        assert a == [a[0]] + a[1..] && b == [b[0]] + b[1..];
      }
    }
  }

  lemma LessAsymmetric(a: string, b: string)
    requires Less(a, b)
    ensures !Less(b, a)
  {
    if Less(b, a) {
      LessTransitive(a, b, a);
      LessIrreflexive(a);
    }
  }

  /** Strictly ascending: sorted and free of duplicates. */
  predicate Ascending(s: seq<string>) {
    forall i, j :: 0 <= i < j < |s| ==> Less(s[i], s[j])
  }

  function Elems(s: seq<string>): set<string> {
    set x | x in s
  }

  /** Adds `x` to an ascending list, keeping it ascending. */
  function Insert(s: seq<string>, x: string): (r: seq<string>)
    requires Ascending(s)
    ensures Ascending(r)
    ensures Elems(r) == Elems(s) + {x}
    decreases |s|, 1
  {
    if |s| == 0 then [x]
    else if x == s[0] then s
    else if Less(x, s[0]) then InsertFront(s, x)
    else InsertAfter(s, x)
  }

  function InsertFront(s: seq<string>, x: string): (r: seq<string>)
    requires Ascending(s) && |s| > 0 && Less(x, s[0])
    ensures r == [x] + s && Ascending(r)
  {
    forall j | 0 <= j < |s| ensures Less(x, s[j]) {
      if j > 0 {
        LessTransitive(x, s[0], s[j]);
      }
    }
    [x] + s
  }

  function InsertAfter(s: seq<string>, x: string): (r: seq<string>)
    requires Ascending(s) && |s| > 0 && x != s[0] && !Less(x, s[0])
    ensures Ascending(r)
    ensures Elems(r) == Elems(s) + {x}
    decreases |s|, 0
  {
    LessTotal(x, s[0]);
    assert Ascending(s[1..]) by {
      forall i, j | 0 <= i < j < |s| - 1 ensures Less(s[1..][i], s[1..][j]) {
        assert s[1..][i] == s[i + 1] && s[1..][j] == s[j + 1];
      }
    }
    var tail := Insert(s[1..], x);
    assert forall y :: y in tail ==> Less(s[0], y) by {
      forall y | y in tail ensures Less(s[0], y) {
        assert y in Elems(tail);
      }
    }
    var r := [s[0]] + tail;
    assert Ascending(r) by {
      forall i, j | 0 <= i < j < |r| ensures Less(r[i], r[j]) {
        if i == 0 {
          assert r[j] == tail[j - 1];
        } else {
          assert r[i] == tail[i - 1] && r[j] == tail[j - 1];
        }
      }
    }
    assert s == [s[0]] + s[1..];
    ConsElems(s[0], s[1..]);
    ConsElems(s[0], tail);
    r
  }

  lemma ConsElems(x: string, s: seq<string>)
    ensures Elems([x] + s) == {x} + Elems(s)
  {
    assert forall y :: y in [x] + s <==> y == x || y in s;
  }

  /** `sorted(set(xs))`. */
  function SortedSet(xs: seq<string>): (r: seq<string>)
    ensures Ascending(r)
    ensures Elems(r) == Elems(xs)
  {
    if |xs| == 0 then []
    else
      var r := Insert(SortedSet(xs[..|xs| - 1]), xs[|xs| - 1]);
      assert xs == xs[..|xs| - 1] + [xs[|xs| - 1]];
      r
  }

  /** An ascending list is determined by its elements, so `sorted(set(...))` depends only on the set. */
  lemma {:induction false} AscendingUnique(r1: seq<string>, r2: seq<string>)
    requires Ascending(r1) && Ascending(r2) && Elems(r1) == Elems(r2)
    ensures r1 == r2
    decreases |r1|
  {
    if |r1| > 0 {
      assert r1[0] in Elems(r2);
    }
    if |r2| > 0 {
      assert r2[0] in Elems(r1);
    }
    if |r1| > 0 && |r2| > 0 {
      MinimumIsHead(r1, r2[0]);
      MinimumIsHead(r2, r1[0]);
      if Less(r1[0], r2[0]) {
        LessAsymmetric(r1[0], r2[0]);
      }
      assert r1 == [r1[0]] + r1[1..] && r2 == [r2[0]] + r2[1..];
      TailAscending(r1);
      TailAscending(r2);
      TailElems(r1);
      TailElems(r2);
      AscendingUnique(r1[1..], r2[1..]);
    }
  }

  lemma MinimumIsHead(r: seq<string>, y: string)
    requires Ascending(r) && |r| > 0 && y in r
    ensures y == r[0] || Less(r[0], y)
  {
  }

  lemma TailAscending(r: seq<string>)
    requires Ascending(r) && |r| > 0
    ensures Ascending(r[1..])
  {
    forall i, j | 0 <= i < j < |r| - 1 ensures Less(r[1..][i], r[1..][j]) {
      assert r[1..][i] == r[i + 1] && r[1..][j] == r[j + 1];
    }
  }

  lemma TailElems(r: seq<string>)
    requires Ascending(r) && |r| > 0
    ensures Elems(r[1..]) == Elems(r) - {r[0]}
  {
    forall y | y in r[1..] ensures y != r[0] {
      LessIrreflexive(r[0]);
    }
    assert r == [r[0]] + r[1..];
  }
}
