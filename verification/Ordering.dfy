/**
 * Go's byte-wise string order and `sort.SliceStable`, modelled by an insertion sort.
 */
module Ordering {
  import opened Common

  /** Go's `<` on strings: lexicographic, a proper prefix first. */
  predicate StringLess(a: string, b: string) {
    |b| > 0 && (|a| == 0 || a[0] < b[0] || (a[0] == b[0] && StringLess(a[1..], b[1..])))
  }

  lemma {:induction false} StringLessTotal(a: string, b: string)
    ensures a == b || StringLess(a, b) || StringLess(b, a)
    ensures !(StringLess(a, b) && StringLess(b, a))
    ensures a == b ==> !StringLess(a, b)
  {
    if |a| > 0 && |b| > 0 && a[0] == b[0] {
      StringLessTotal(a[1..], b[1..]);
      assert a == [a[0]] + a[1..] && b == [b[0]] + b[1..];
    }
  }

  lemma {:induction false} StringLessTransitive(a: string, b: string, c: string)
    requires StringLess(a, b) && StringLess(b, c)
    ensures StringLess(a, c)
  {
    if |a| > 0 && a[0] == b[0] && b[0] == c[0] {
      StringLessTransitive(a[1..], b[1..], c[1..]);
    }
  }

  /** `b` goes on where `a` ends, or has a greater character where they first differ. */
  ghost predicate LessAt(a: string, b: string, i: nat) {
    i <= |a| && i < |b| && a[..i] == b[..i] && (i == |a| || a[i] < b[i])
  }

  lemma SameStart(a: string, b: string, i: nat)
    requires 0 < i <= |a| && i <= |b| && a[..i] == b[..i]
    ensures a[0] == b[0]
  {
    assert a[..i][0] == b[..i][0];
  }

  lemma {:induction false} StringLessMeaning(a: string, b: string)
    ensures StringLess(a, b) <==> exists i: nat :: LessAt(a, b, i)
  {
    if |a| == 0 || |b| == 0 {
      if |b| > 0 { assert LessAt(a, b, 0); }
    } else if a[0] != b[0] {
      assert LessAt(a, b, 0) <==> a[0] < b[0];
      forall i: nat | i > 0 ensures !LessAt(a, b, i) {
        if LessAt(a, b, i) { SameStart(a, b, i); }
      }
    } else {
      StringLessMeaning(a[1..], b[1..]);
      if i: nat :| LessAt(a[1..], b[1..], i) {
        assert a[..i + 1] == [a[0]] + a[1..][..i] && b[..i + 1] == [b[0]] + b[1..][..i];
        assert LessAt(a, b, i + 1);
      }
      if i: nat :| LessAt(a, b, i) {
        if i > 0 {
          assert a[1..][..i - 1] == a[..i][1..] && b[1..][..i - 1] == b[..i][1..];
          assert LessAt(a[1..], b[1..], i - 1);
        }
      }
    }
  }

  /** The string order facts the comparators below need about one triple. */
  lemma StringLessTriple(a: string, b: string, c: string)
    ensures !StringLess(a, a)
    ensures StringLess(a, b) && StringLess(b, c) ==> StringLess(a, c)
    ensures StringLess(a, c) ==> StringLess(a, b) || StringLess(b, c)
    ensures a != b ==> StringLess(a, b) || StringLess(b, a)
    ensures !(StringLess(a, b) && StringLess(b, a))
  {
    StringLessTotal(a, a);
    StringLessTotal(a, b);
    StringLessTotal(b, c);
    if StringLess(a, b) && StringLess(b, c) { StringLessTransitive(a, b, c); }
    if StringLess(a, c) && StringLess(b, a) { StringLessTransitive(b, a, c); }
  }

  /** What `sort.SliceStable` asks of its comparator. */
  ghost predicate StrictWeakOrder<T(!new)>(less: (T, T) -> bool) {
    && (forall x :: !less(x, x))
    && (forall x, y, z :: less(x, y) && less(y, z) ==> less(x, z))
    && (forall x, y, z :: less(x, z) ==> less(x, y) || less(y, z))
  }

  ghost predicate Sorted<T>(less: (T, T) -> bool, s: seq<T>) {
    forall i, j :: 0 <= i < j < |s| ==> !less(s[j], s[i])
  }

  ghost predicate StrictlySorted<T>(less: (T, T) -> bool, s: seq<T>) {
    forall i, j :: 0 <= i < j < |s| ==> less(s[i], s[j])
  }

  /** Neither element comes before the other. */
  function TiesWith<T>(less: (T, T) -> bool, x: T): T -> bool {
    (y: T) => !less(x, y) && !less(y, x)
  }

  /** Places `x` after every element of `s` it is not less than. */
  function Insert<T>(less: (T, T) -> bool, s: seq<T>, x: T): (r: seq<T>)
    ensures multiset(r) == multiset(s) + multiset{x}
  {
    if s == [] || !less(x, s[|s| - 1]) then s + [x]
    else
      assert s == s[..|s| - 1] + [s[|s| - 1]];
      Insert(less, s[..|s| - 1], x) + [s[|s| - 1]]
  }

  function StableSort<T>(less: (T, T) -> bool, s: seq<T>): (r: seq<T>)
    ensures multiset(r) == multiset(s)
    ensures |r| == |s|
  {
    if s == [] then [] else
      assert s == s[..|s| - 1] + [s[|s| - 1]];
      var r := Insert(less, StableSort(less, s[..|s| - 1]), s[|s| - 1]);
      assert |multiset(r)| == |multiset(s)|;
      r
  }

  lemma {:induction false} InsertSorted<T(!new)>(less: (T, T) -> bool, s: seq<T>, x: T)
    requires StrictWeakOrder(less) && Sorted(less, s)
    ensures Sorted(less, Insert(less, s, x))
  {
    if s != [] && less(x, s[|s| - 1]) {
      var front, last := s[..|s| - 1], s[|s| - 1];
      InsertSorted(less, front, x);
      assert front + [last] == s;
      InsertedBefore(less, front, x, last);
    } else if s != [] {
      forall k | 0 <= k < |s| ensures !less(x, s[k]) {
        if k < |s| - 1 { assert !less(s[|s| - 1], s[k]); }
      }
    }
  }

  /** Nothing that ends up before `last` is preceded by it. */
  lemma InsertedBefore<T(!new)>(less: (T, T) -> bool, front: seq<T>, x: T, last: T)
    requires StrictWeakOrder(less) && less(x, last) && Sorted(less, front + [last])
    ensures forall y :: y in Insert(less, front, x) ==> !less(last, y)
  {
    hide Insert;
    var r := Insert(less, front, x);
    forall y | y in r ensures !less(last, y) {
      assert y in multiset(r);
      assert y in front || y == x;
      if y in front {
        var k :| 0 <= k < |front| && front[k] == y;
        assert (front + [last])[k] == y && (front + [last])[|front|] == last;
      }
    }
  }

  lemma {:induction false} InsertStable<T(!new)>(less: (T, T) -> bool, s: seq<T>, x: T, a: T)
    requires StrictWeakOrder(less) && Sorted(less, s)
    ensures Filter(TiesWith(less, a), Insert(less, s, x)) == Filter(TiesWith(less, a), s + [x])
  {
    hide Filter;
    if s != [] && less(x, s[|s| - 1]) {
      var p, front, last := TiesWith(less, a), s[..|s| - 1], s[|s| - 1];
      InsertStable(less, front, x, a);
      FilterAppend(p, Insert(less, front, x), last);
      FilterAppend(p, front, x);
      FilterAppend(p, front, last);
      FilterAppend(p, s, x);
      assert s == front + [last];
      assert !(p(x) && p(last));
    }
  }

  /** `sort.SliceStable` sorts, keeps every element, and keeps tied elements in input order. */
  lemma {:induction false} StableSortCorrect<T(!new)>(less: (T, T) -> bool, s: seq<T>)
    requires StrictWeakOrder(less)
    ensures multiset(StableSort(less, s)) == multiset(s)
    ensures Sorted(less, StableSort(less, s))
    ensures forall a :: Filter(TiesWith(less, a), StableSort(less, s)) == Filter(TiesWith(less, a), s)
  {
    if s != [] {
      var front, last := s[..|s| - 1], s[|s| - 1];
      StableSortCorrect(less, front);
      var r := StableSort(less, front);
      InsertSorted(less, r, last);
      forall a ensures Filter(TiesWith(less, a), StableSort(less, s)) == Filter(TiesWith(less, a), s) {
        InsertStable(less, r, last, a);
        assert (r + [last])[..|r|] == r;
      }
    }
  }

  /** A strictly sorted list is determined by its set of elements. */
  lemma {:induction false} StrictlySortedUnique<T(!new)>(less: (T, T) -> bool, a: seq<T>, b: seq<T>)
    requires StrictWeakOrder(less)
    requires StrictlySorted(less, a) && StrictlySorted(less, b)
    requires Within(a, b) && Within(b, a)
    ensures a == b
  {
    assert |b| > 0 ==> b[0] in a;
    if a != [] {
      assert a[0] in b && b[0] in a;
      var k :| 0 <= k < |b| && b[k] == a[0];
      var m :| 0 <= m < |a| && a[m] == b[0];
      assert a[0] == b[0];
      forall x | x in a[1..] ensures x in b[1..] {
        var i :| 0 <= i < |a[1..]| && a[1..][i] == x;
        assert less(a[0], a[i + 1]) && a[i + 1] in a;
        var j :| 0 <= j < |b| && b[j] == x;
        assert b[1..][j - 1] == x;
      }
      forall x | x in b[1..] ensures x in a[1..] {
        var i :| 0 <= i < |b[1..]| && b[1..][i] == x;
        assert less(b[0], b[i + 1]) && b[i + 1] in b;
        var j :| 0 <= j < |a| && a[j] == x;
        assert a[1..][j - 1] == x;
      }
      StrictlySortedUnique(less, a[1..], b[1..]);
    }
  }

  /** Sorting a list in which distinct positions are comparable gives a strictly sorted list. */
  lemma SortedWithoutTies<T(!new)>(less: (T, T) -> bool, s: seq<T>)
    requires StrictWeakOrder(less)
    requires NoDuplicates(s)
    requires forall x, y :: x in s && y in s && x != y ==> less(x, y) || less(y, x)
    ensures StrictlySorted(less, StableSort(less, s))
    ensures Within(StableSort(less, s), s) && Within(s, StableSort(less, s))
  {
    var r := StableSort(less, s);
    StableSortCorrect(less, s);
    SameElements(r, s);
    NoDuplicatesMultiset(s);
    forall i, j | 0 <= i < j < |r| ensures less(r[i], r[j]) {
      if r[i] == r[j] {
        assert multiset(r)[r[i]] >= 2 by { TwoOccurrences(r, i, j); }
      }
    }
  }

  lemma NoDuplicatesMultiset<T>(s: seq<T>)
    requires NoDuplicates(s)
    ensures forall x :: multiset(s)[x] <= 1
  {
    if s != [] {
      var front, last := s[..|s| - 1], s[|s| - 1];
      assert s == front + [last];
      NoDuplicatesMultiset(front);
      assert last !in multiset(front);
    }
  }

  lemma TwoOccurrences<T>(s: seq<T>, i: nat, j: nat)
    requires i < j < |s| && s[i] == s[j]
    ensures multiset(s)[s[i]] >= 2
  {
    assert s == s[..j] + s[j..];
    assert s[..j][i] in multiset(s[..j]);
    assert s[j..][0] in multiset(s[j..]);
    assert multiset(s) == multiset(s[..j]) + multiset(s[j..]);
  }
}
