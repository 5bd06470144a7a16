/** Shared value types and sequence helpers. */
module Common {

  datatype Option<+T> = None | Some(value: T)

  datatype Result<+T> = Ok(value: T) | Err

  /** Applies `f` to each element in order and concatenates the results. */
  function FlatMap<A, B>(f: A -> seq<B>, s: seq<A>): seq<B> {
    if s == [] then [] else FlatMap(f, s[..|s| - 1]) + f(s[|s| - 1])
  }

  lemma {:induction false} FlatMapMembers<A, B>(f: A -> seq<B>, s: seq<A>, y: B)
    ensures y in FlatMap(f, s) <==> exists x :: x in s && y in f(x)
  {
    if s != [] {
      var last := |s| - 1;
      FlatMapMembers(f, s[..last], y);
      if y in FlatMap(f, s[..last]) {
        var x :| x in s[..last] && y in f(x);
        assert x in s;
      }
      if x :| x in s && y in f(x) {
        assert s == s[..last] + [s[last]];
      }
    }
  }

  lemma {:induction false} FlatMapConcat<A, B>(f: A -> seq<B>, s: seq<A>, t: seq<A>)
    ensures FlatMap(f, s + t) == FlatMap(f, s) + FlatMap(f, t)
  {
    if t == [] {
      assert s + t == s;
    } else {
      var last := |t| - 1;
      FlatMapConcat(f, s, t[..last]);
      assert (s + t)[..|s + t| - 1] == s + t[..last];
    }
  }

  lemma FlatMapSingle<A, B>(f: A -> seq<B>, x: A)
    ensures FlatMap(f, [x]) == f(x)
  {
    assert FlatMap(f, [x][..0]) == [];
  }

  /** The step every accumulating loop takes: one more element processed. */
  lemma FlatMapStep<A, B>(f: A -> seq<B>, s: seq<A>, i: nat)
    requires i < |s|
    ensures FlatMap(f, s[..i + 1]) == FlatMap(f, s[..i]) + f(s[i])
  {
    assert s[..i + 1][..i] == s[..i];
  }

  lemma FlatMapEnds<A, B>(f: A -> seq<B>, s: seq<A>)
    ensures FlatMap(f, s[..0]) == [] && s[..|s|] == s
  {
  }

  /** The elements satisfying `p`, in order. */
  function Filter<A>(p: A -> bool, s: seq<A>): seq<A> {
    if s == [] then [] else Filter(p, s[..|s| - 1]) + (if p(s[|s| - 1]) then [s[|s| - 1]] else [])
  }

  lemma FilterAppend<A>(p: A -> bool, s: seq<A>, x: A)
    ensures Filter(p, s + [x]) == Filter(p, s) + (if p(x) then [x] else [])
  {
    assert (s + [x])[..|s|] == s;
  }

  lemma {:induction false} FilterMembers<A>(p: A -> bool, s: seq<A>, x: A)
    ensures x in Filter(p, s) <==> x in s && p(x)
  {
    if s != [] {
      assert s == s[..|s| - 1] + [s[|s| - 1]];
      FilterMembers(p, s[..|s| - 1], x);
    }
  }

  lemma {:induction false} FilterConcat<A>(p: A -> bool, s: seq<A>, t: seq<A>)
    ensures Filter(p, s + t) == Filter(p, s) + Filter(p, t)
  {
    if t == [] {
      assert s + t == s;
    } else {
      var last := |t| - 1;
      FilterConcat(p, s, t[..last]);
      assert (s + t)[..|s + t| - 1] == s + t[..last];
    }
  }

  /** The positions of `s` that satisfy `p`. */
  function Positions<A>(p: A -> bool, s: seq<A>): set<int> {
    set i | 0 <= i < |s| && p(s[i])
  }

  lemma PositionsStep<A>(p: A -> bool, s: seq<A>)
    requires s != []
    ensures var last := |s| - 1;
      last !in Positions(p, s[..last])
      && Positions(p, s) == Positions(p, s[..last]) + (if p(s[last]) then {last} else {})
  {
  }

  /** Filtering keeps as many elements as there are positions that satisfy `p`. */
  lemma {:induction false} FilterCount<A>(p: A -> bool, s: seq<A>)
    ensures |Filter(p, s)| == |Positions(p, s)|
  {
    if s == [] {
      assert Positions(p, s) == {};
    } else {
      PositionsStep(p, s);
      FilterCount(p, s[..|s| - 1]);
      hide Positions;
    }
  }

  /** Every element of `a` occurs in `b`. */
  ghost predicate Within<T>(a: seq<T>, b: seq<T>) {
    forall x :: x in a ==> x in b
  }

  ghost predicate NoDuplicates<T>(s: seq<T>) {
    forall i, j :: 0 <= i < j < |s| ==> s[i] != s[j]
  }

  /** Equal multisets have equal membership. */
  lemma SameElements<T>(a: seq<T>, b: seq<T>)
    requires multiset(a) == multiset(b)
    ensures |a| == |b| && Within(a, b) && Within(b, a)
  {
    forall x | x in a ensures x in b { assert x in multiset(a); }
    forall x | x in b ensures x in a { assert x in multiset(b); }
    assert |multiset(a)| == |a| && |multiset(b)| == |b|;
  }
}
