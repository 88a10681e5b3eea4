/** The parts of Python's string handling that the remote-build command relies
    on: `str.strip()`, `str.split(sep)`, `sep.join(parts)` and the code-point
    order that `sorted()` uses on strings. */
module Strings {

  /** Python's `str.isspace()` for a single character: the ASCII whitespace
      characters, the information separators 0x1C-0x1F and the Unicode space
      separators and line/paragraph separators. */
  predicate IsSpace(c: char) {
    var n := c as int;
    (9 <= n <= 13) || (28 <= n <= 32) || n == 0x85 || n == 0xA0 || n == 0x1680 ||
    (0x2000 <= n <= 0x200A) || n == 0x2028 || n == 0x2029 || n == 0x202F ||
    n == 0x205F || n == 0x3000
  }

  predicate AllSpace(s: string) {
    forall k :: 0 <= k < |s| ==> IsSpace(s[k])
  }

  /** The end of the run of whitespace that starts at index `from` of `s`. */
  function SpaceRunEnd(s: string, from: nat): (n: nat)
    requires from <= |s|
    ensures from <= n <= |s|
    ensures forall k :: from <= k < n ==> IsSpace(s[k])
    ensures n < |s| ==> !IsSpace(s[n])
    decreases |s| - from
  {
    if from == |s| || !IsSpace(s[from]) then from else SpaceRunEnd(s, from + 1)
  }

  /** The start of the run of whitespace that ends at index `hi` of `s`,
      looking no further back than `lo`. */
  function SpaceRunStart(s: string, lo: nat, hi: nat): (m: nat)
    requires lo <= hi <= |s|
    ensures lo <= m <= hi
    ensures forall k :: m <= k < hi ==> IsSpace(s[k])
    ensures m > lo ==> !IsSpace(s[m - 1])
    decreases hi
  {
    if hi == lo || !IsSpace(s[hi - 1]) then hi else SpaceRunStart(s, lo, hi - 1)
  }

  /** Python's `s.strip()`: `s` with its leading and trailing whitespace removed.
      The result is the slice of `s` between an all-whitespace prefix and an
      all-whitespace suffix, it neither starts nor ends with whitespace, and it
      is empty exactly when `s` is all whitespace. */
  function Strip(s: string): (r: string)
    ensures r == [] || (!IsSpace(r[0]) && !IsSpace(r[|r| - 1]))
    ensures var i := SpaceRunEnd(s, 0);
      i + |r| <= |s| && r == s[i..i + |r|] &&
      (forall k :: 0 <= k < i ==> IsSpace(s[k])) && (forall k :: i + |r| <= k < |s| ==> IsSpace(s[k]))
    ensures r == [] <==> AllSpace(s)
  {
    var i := SpaceRunEnd(s, 0);
    var j := SpaceRunStart(s, i, |s|);
    assert j > i ==> !IsSpace(s[i]);
    s[i..j]
  }

  /** Index of the first `c` in `s`, or `|s|` when there is none. */
  function IndexOf(s: string, c: char): (i: nat)
    ensures i <= |s|
    ensures i < |s| ==> s[i] == c
    ensures c !in s[..i]
  {
    if s == [] || s[0] == c then 0 else 1 + IndexOf(s[1..], c)
  }

  /** Python's `s.split(sep)` for a one-character separator: the maximal
      separator-free pieces of `s`, one more than there are separators. */
  function Split(s: string, sep: char): (parts: seq<string>)
    ensures |parts| == multiset(s)[sep] + 1
    ensures forall p <- parts :: sep !in p
    decreases |s|
  {
    var i := IndexOf(s, sep);
    if i == |s| then
      assert s[..i] == s;
      [s]
    else
      assert s == s[..i] + [sep] + s[i + 1..];
      assert multiset(s) == multiset(s[..i]) + multiset{sep} + multiset(s[i + 1..]);
      [s[..i]] + Split(s[i + 1..], sep)
  }

  /** Python's `sep.join(parts)`. */
  function Join(parts: seq<string>, sep: string): string {
    if |parts| == 0 then ""
    else if |parts| == 1 then parts[0]
    else parts[0] + sep + Join(parts[1..], sep)
  }

  /** Joining the pieces of a split with the separator gives back the string. */
  lemma {:induction false} JoinSplit(s: string, sep: char)
    ensures Join(Split(s, sep), [sep]) == s
    decreases |s|
  {
    var i := IndexOf(s, sep);
    if i == |s| {
      assert s[..i] == s;
    } else {
      var rest := s[i + 1..];
      JoinSplit(rest, sep);
      var tail := Split(rest, sep);
      JoinCons(s[..i], tail, [sep]);
      assert s == s[..i] + [sep] + rest;
    }
  }

  lemma JoinCons(p: string, tail: seq<string>, sep: string)
    requires |tail| >= 1
    ensures Join([p] + tail, sep) == p + sep + Join(tail, sep)
  {
    assert ([p] + tail)[1..] == tail;
  }

  /** Splitting a join of separator-free pieces gives back the pieces. */
  lemma {:induction false} SplitJoin(parts: seq<string>, sep: char)
    requires |parts| >= 1
    requires forall p <- parts :: sep !in p
    ensures Split(Join(parts, [sep]), sep) == parts
    decreases |parts|
  {
    if |parts| == 1 {
      var s := parts[0];
      IndexOfAbsent(s, sep);
      assert s[..|s|] == s;
    } else {
      var p := parts[0];
      var tail := parts[1..];
      assert parts == [p] + tail;
      JoinCons(p, tail, [sep]);
      var rest := Join(tail, [sep]);
      var s := p + [sep] + rest;
      IndexAfterPiece(p, sep, rest);
      assert s[..|p|] == p;
      assert s[|p| + 1..] == rest;
      assert forall q <- tail :: sep !in q;
      SplitJoin(tail, sep);
    }
  }

  lemma {:induction false} IndexOfAbsent(s: string, c: char)
    requires c !in s
    ensures IndexOf(s, c) == |s|
  {
    if s != [] { IndexOfAbsent(s[1..], c); }
  }

  lemma {:induction false} IndexAfterPiece(p: string, sep: char, rest: string)
    requires sep !in p
    ensures IndexOf(p + [sep] + rest, sep) == |p|
  {
    if p != [] {
      IndexAfterPiece(p[1..], sep, rest);
      assert (p + [sep] + rest)[1..] == p[1..] + [sep] + rest;
    }
  }

  /** Python's `<` on strings: lexicographic comparison by code point, where
      a proper prefix is smaller. */
  predicate Less(a: string, b: string) {
    |b| > 0 && (|a| == 0 || a[0] < b[0] || (a[0] == b[0] && Less(a[1..], b[1..])))
  }

  lemma {:induction false} LessIrreflexive(a: string)
    ensures !Less(a, a)
  {
    if |a| > 0 { LessIrreflexive(a[1..]); }
  }

  lemma {:induction false} LessTransitive(a: string, b: string, c: string)
    ensures Less(a, b) && Less(b, c) ==> Less(a, c)
  {
    if Less(a, b) && Less(b, c) && |a| > 0 && a[0] == b[0] && b[0] == c[0] {
      LessTransitive(a[1..], b[1..], c[1..]);
    }
  }

  lemma {:induction false} LessTotal(a: string, b: string)
    ensures a == b || Less(a, b) || Less(b, a)
  {
    if |a| > 0 && |b| > 0 && a[0] == b[0] {
      LessTotal(a[1..], b[1..]);
      assert a == [a[0]] + a[1..] && b == [b[0]] + b[1..];
    }
  }

  predicate StrictlySorted(r: seq<string>) {
    forall i, j :: 0 <= i < j < |r| ==> Less(r[i], r[j])
  }

  predicate IsLeast(m: string, s: set<string>) {
    m in s && forall x :: x in s ==> x == m || Less(m, x)
  }

  lemma {:induction false} LeastExists(s: set<string>)
    requires s != {}
    ensures exists m :: IsLeast(m, s)
    decreases |s|
  {
    var y :| y in s;
    if s != {y} {
      LeastExists(s - {y});
      var m :| IsLeast(m, s - {y});
      LessTotal(m, y);
      if Less(y, m) {
        forall x | x in s ensures x == y || Less(y, x) {
          if x != y && x != m { LessTransitive(y, m, x); }
        }
        assert IsLeast(y, s);
      } else {
        assert IsLeast(m, s);
      }
    } else {
      assert IsLeast(y, s);
    }
  }

  /** The elements of `s` in increasing order: what Python's `sorted(s)` returns
      for a set of strings. */
  ghost function SortedOf(s: set<string>): (r: seq<string>)
    ensures StrictlySorted(r)
    ensures forall x :: x in r <==> x in s
    decreases |s|
  {
    if s == {} then []
    else
      LeastExists(s);
      var m :| IsLeast(m, s);
      var rest := SortedOf(s - {m});
      assert forall j :: 0 <= j < |rest| ==> Less(m, rest[j]) by {
        forall j | 0 <= j < |rest| ensures Less(m, rest[j]) {
          assert rest[j] in rest;
        }
      }
      [m] + rest
  }

  /** A strictly sorted sequence is determined by its elements. */
  lemma {:induction false} SortedUnique(r1: seq<string>, r2: seq<string>)
    requires StrictlySorted(r1) && StrictlySorted(r2)
    requires forall x :: x in r1 <==> x in r2
    ensures r1 == r2
    decreases |r1|
  {
    if |r1| == 0 {
      NonEmptyHasMember(r2);
    } else {
      assert r1[0] in r2;
      assert r2[0] in r1;
      HeadIsLeast(r1);
      HeadIsLeast(r2);
      LessTransitive(r1[0], r2[0], r1[0]);
      LessIrreflexive(r1[0]);
      assert r1[0] == r2[0];
      forall x ensures x in r1[1..] <==> x in r2[1..] {
        TailMembers(r1, x);
        TailMembers(r2, x);
      }
      SortedUnique(r1[1..], r2[1..]);
    }
  }

  lemma NonEmptyHasMember(r: seq<string>)
    ensures |r| > 0 ==> r[0] in r
  {
  }

  lemma HeadIsLeast(r: seq<string>)
    requires StrictlySorted(r) && |r| > 0
    ensures forall x :: x in r ==> x == r[0] || Less(r[0], x)
  {
  }

  lemma TailMembers(r: seq<string>, x: string)
    requires StrictlySorted(r) && |r| > 0
    ensures x in r[1..] <==> x in r && x != r[0]
  {
    LessIrreflexive(r[0]);
    if x in r[1..] {
      var j :| 0 <= j < |r| - 1 && r[1..][j] == x;
      assert r[j + 1] == x;
    }
    if x in r && x != r[0] {
      var j :| 0 <= j < |r| && r[j] == x;
      assert r[1..][j - 1] == x;
    }
  }

  /** Python's `sorted()` on a set of strings: repeatedly takes the least of
      the remaining elements. */
  method SortNames(s: set<string>) returns (r: seq<string>)
    ensures StrictlySorted(r)
    ensures forall x :: x in r <==> x in s
    ensures r == SortedOf(s)
  {
    r := [];
    var rest := s;
    while rest != {}
      invariant rest <= s
      invariant StrictlySorted(r)
      invariant forall x :: x in r <==> x in s && x !in rest
      invariant forall i, y :: 0 <= i < |r| && y in rest ==> Less(r[i], y)
      decreases |rest|
    {
      LeastExists(rest);
      var m :| IsLeast(m, rest);
      forall i, y | 0 <= i < |r| + 1 && y in rest - {m} ensures Less((r + [m])[i], y) {
        if i < |r| { assert Less(r[i], y); } else { assert Less(m, y); }
      }
      r := r + [m];
      rest := rest - {m};
    }
    SortedUnique(r, SortedOf(s));
  }
}
