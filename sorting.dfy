/**
 * Python's `sorted(xs, key=k, reverse=r)` over a real-valued key, and
 * order-preserving subsequences (what a filtering loop or comprehension
 * produces).
 */
module Sorting {

  /** `x` may come before `y`: not smaller when descending, not larger otherwise. */
  predicate InOrder(x: real, y: real, descending: bool)
  {
    if descending then x >= y else x <= y
  }

  /** Every element is in order with every later one. */
  predicate SortedBy<T>(s: seq<T>, key: T -> real, descending: bool)
  {
    forall i, j :: 0 <= i < j < |s| ==> InOrder(key(s[i]), key(s[j]), descending)
  }

  /** Inserts `x` before the first element it may precede, so that it stays
    * ahead of the elements with an equal key. */
  function Insert<T(==)>(x: T, s: seq<T>, key: T -> real, descending: bool): (r: seq<T>)
    ensures multiset(r) == multiset(s) + multiset{x}
  {
    if s == [] then [x]
    else if InOrder(key(x), key(s[0]), descending) then [x] + s
    else
      assert s == [s[0]] + s[1..];
      [s[0]] + Insert(x, s[1..], key, descending)
  }

  lemma {:induction false} InsertSorted<T>(x: T, s: seq<T>, key: T -> real, descending: bool)
    requires SortedBy(s, key, descending)
    ensures SortedBy(Insert(x, s, key, descending), key, descending)
  {
    if s != [] && !InOrder(key(x), key(s[0]), descending) {
      InsertSorted(x, s[1..], key, descending);
      var rest := Insert(x, s[1..], key, descending);
      forall y | y in rest ensures InOrder(key(s[0]), key(y), descending) {
        assert y in multiset(rest);
        assert y == x || y in s[1..];
      }
      var r := [s[0]] + rest;
      forall i, j | 0 <= i < j < |r| ensures InOrder(key(r[i]), key(r[j]), descending) {
        if i == 0 {
          assert r[j] in rest;
        } else {
          assert r[i] == rest[i - 1] && r[j] == rest[j - 1];
        }
      }
    } else if s != [] {
      var r := [x] + s;
      forall i, j | 0 <= i < j < |r| ensures InOrder(key(r[i]), key(r[j]), descending) {
        if i == 0 && j > 1 {
          assert InOrder(key(s[0]), key(s[j - 1]), descending);
        }
      }
    }
  }

  /** `sorted(s, key=key, reverse=descending)`: an insertion sort, stable as
    * Python's sort is (in both directions). */
  function SortBy<T(==)>(s: seq<T>, key: T -> real, descending: bool): (r: seq<T>)
    ensures multiset(r) == multiset(s)
  {
    if s == [] then []
    else
      assert s == [s[0]] + s[1..];
      Insert(s[0], SortBy(s[1..], key, descending), key, descending)
  }

  /** The sorted sequence is ordered by the key. */
  lemma {:induction false} SortBySorted<T>(s: seq<T>, key: T -> real, descending: bool)
    ensures SortedBy(SortBy(s, key, descending), key, descending)
  {
    if s != [] {
      SortBySorted(s[1..], key, descending);
      InsertSorted(s[0], SortBy(s[1..], key, descending), key, descending);
    }
  }

  /** The sorted sequence has the same elements and the same length. */
  lemma SortByPermutes<T>(s: seq<T>, key: T -> real, descending: bool)
    ensures |SortBy(s, key, descending)| == |s|
    ensures forall x :: x in SortBy(s, key, descending) <==> x in s
  {
    var r := SortBy(s, key, descending);
    assert |r| == |multiset(r)| == |multiset(s)| == |s|;
    forall x ensures x in r <==> x in s {
      assert x in r <==> x in multiset(r);
      assert x in s <==> x in multiset(s);
    }
  }

  /** `a` is `b` with some elements left out, the rest in their order. */
  predicate IsSubsequence<T(==)>(a: seq<T>, b: seq<T>)
    decreases |b|
  {
    a == [] ||
    (b != [] &&
      ((a[|a| - 1] == b[|b| - 1] && IsSubsequence(a[..|a| - 1], b[..|b| - 1]))
       || IsSubsequence(a, b[..|b| - 1])))
  }

  /** Taking or skipping the next element keeps a subsequence. */
  lemma SubsequenceStep<T>(a: seq<T>, b: seq<T>, x: T)
    requires IsSubsequence(a, b)
    ensures IsSubsequence(a + [x], b + [x])
    ensures IsSubsequence(a, b + [x])
  {
    assert (a + [x])[..|a|] == a;
    assert (b + [x])[..|b|] == b;
  }

  /** A subsequence is no longer and holds only elements of the original. */
  lemma {:induction false} SubsequenceElements<T>(a: seq<T>, b: seq<T>)
    requires IsSubsequence(a, b)
    ensures |a| <= |b|
    ensures forall x :: x in a ==> x in b
    decreases |b|
  {
    if a != [] {
      var b' := b[..|b| - 1];
      if a[|a| - 1] == b[|b| - 1] && IsSubsequence(a[..|a| - 1], b') {
        SubsequenceElements(a[..|a| - 1], b');
        forall x | x in a ensures x in b {
          if x != a[|a| - 1] {
            assert x in a[..|a| - 1];
            assert x in b';
          }
        }
      } else {
        SubsequenceElements(a, b');
      }
    }
  }

  // ---------------------------------------------------------------------
  // Python's order on strings (code point by code point)
  // ---------------------------------------------------------------------

  /** `a < b` for Python strings: the first differing character decides, and
    * a proper prefix comes first. */
  predicate StrLess(a: string, b: string)
  {
    if a == [] then b != []
    else if b == [] then false
    else if a[0] != b[0] then a[0] < b[0]
    else StrLess(a[1..], b[1..])
  }

  lemma {:induction false} StrLessIrreflexive(a: string)
    ensures !StrLess(a, a)
  {
    if a != [] {
      StrLessIrreflexive(a[1..]);
    }
  }

  lemma {:induction false} StrLessTransitive(a: string, b: string, c: string)
    requires StrLess(a, b) && StrLess(b, c)
    ensures StrLess(a, c)
  {
    if a != [] && a[0] == b[0] && b[0] == c[0] {
      StrLessTransitive(a[1..], b[1..], c[1..]);
    }
  }

  lemma {:induction false} StrLessTotal(a: string, b: string)
    requires a != b
    ensures StrLess(a, b) || StrLess(b, a)
  {
    if a != [] && b != [] && a[0] == b[0] {
      assert a == [a[0]] + a[1..] && b == [b[0]] + b[1..];
      StrLessTotal(a[1..], b[1..]);
    }
  }

  /** Strictly increasing: sorted and without repeats. */
  predicate StrictlyAscending(s: seq<string>)
  {
    forall i, j :: 0 <= i < j < |s| ==> StrLess(s[i], s[j])
  }

  /** Places `x` into a strictly increasing sequence that does not hold it. */
  function InsertString(x: string, s: seq<string>): (r: seq<string>)
    ensures |r| == |s| + 1
    ensures forall y :: y in r <==> y == x || y in s
  {
    if s == [] || StrLess(x, s[0]) then [x] + s
    else [s[0]] + InsertString(x, s[1..])
  }

  lemma {:induction false} InsertStringAscending(x: string, s: seq<string>)
    requires StrictlyAscending(s) && x !in s
    ensures StrictlyAscending(InsertString(x, s))
  {
    var r := InsertString(x, s);
    if s == [] {
    } else if StrLess(x, s[0]) {
      forall i, j | 0 <= i < j < |r| ensures StrLess(r[i], r[j]) {
        if i == 0 && j > 1 {
          StrLessTransitive(x, s[0], s[j - 1]);
        }
      }
    } else {
      assert s[0] != x;
      StrLessTotal(x, s[0]);
      assert x !in s[1..] by { assert forall k :: 0 <= k < |s[1..]| ==> s[1..][k] == s[k + 1]; }
      InsertStringAscending(x, s[1..]);
      var rest := InsertString(x, s[1..]);
      forall y | y in rest ensures StrLess(s[0], y) {
        if y != x {
          var k :| 0 <= k < |s[1..]| && s[1..][k] == y;
          assert y == s[k + 1];
        }
      }
      forall i, j | 0 <= i < j < |r| ensures StrLess(r[i], r[j]) {
        if i == 0 {
          assert r[j] in rest;
        } else {
          assert r[i] == rest[i - 1] && r[j] == rest[j - 1];
        }
      }
    }
  }
}
