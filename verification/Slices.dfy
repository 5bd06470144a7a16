/**
 * Go slices as far as `MergeReports` depends on them: a slice shares its backing array, and
 * `append` writes in place while the array has room. For each framework a merge starts from the
 * breach list of one stored report and appends the lists of the others one after the other, so a
 * later merge can reach into an earlier result.
 */
module Slices {
  import opened Common
  import opened Api
  import M = Merge

  /** `len` elements from the start of a backing array. */
  datatype Slice = Slice(backing: nat, len: nat)

  /** Backing arrays; an array's capacity is its length. */
  type Heap<T> = map<nat, seq<T>>

  /** The array an append allocates when there is no room, and its unused rest. */
  datatype Growth<T> = Growth(backing: nat, spare: seq<T>)

  predicate Live<T>(h: Heap<T>, s: Slice) {
    s.backing in h && s.len <= |h[s.backing]|
  }

  function Contents<T>(h: Heap<T>, s: Slice): seq<T>
    requires Live(h, s)
  {
    h[s.backing][..s.len]
  }

  function Room<T>(h: Heap<T>, s: Slice): nat
    requires Live(h, s)
  {
    |h[s.backing]| - s.len
  }

  /** `xs` written into `a` behind its first `len` elements. */
  function Overwritten<T>(a: seq<T>, len: nat, xs: seq<T>): (r: seq<T>)
    requires len + |xs| <= |a|
    ensures |r| == |a|
  {
    a[..len] + xs + a[len + |xs|..]
  }

  function Append<T>(h: Heap<T>, s: Slice, xs: seq<T>, g: Growth<T>): (Heap<T>, Slice)
    requires Live(h, s)
  {
    if |xs| <= Room(h, s)
    then (h[s.backing := Overwritten(h[s.backing], s.len, xs)], Slice(s.backing, s.len + |xs|))
    else (h[g.backing := Contents(h, s) + xs + g.spare], Slice(g.backing, s.len + |xs|))
  }

  /** Arrays to grow into that exist nowhere yet. */
  ghost predicate Fresh<T>(h: Heap<T>, gs: seq<Growth<T>>) {
    && (forall i :: 0 <= i < |gs| ==> gs[i].backing !in h)
    && (forall i, j :: 0 <= i < j < |gs| ==> gs[i].backing != gs[j].backing)
  }

  /** The result reads as the concatenation, and the slice appended to reads as before. */
  lemma AppendReads<T>(h: Heap<T>, s: Slice, xs: seq<T>, g: Growth<T>)
    requires Live(h, s) && g.backing !in h
    ensures var (h', r) := Append(h, s, xs, g);
      && Live(h', r) && Contents(h', r) == Contents(h, s) + xs
      && Live(h', s) && Contents(h', s) == Contents(h, s)
  {
    var (h', r) := Append(h, s, xs, g);
    assert h'[r.backing][..s.len] == h[s.backing][..s.len];
  }

  // ----- a merge: one append after the other -----

  /** One growth per list, used only where the list does not fit. */
  function AppendAll<T>(h: Heap<T>, s: Slice, xss: seq<seq<T>>, gs: seq<Growth<T>>): (Heap<T>, Slice)
    requires Live(h, s) && |gs| == |xss| && Fresh(h, gs)
    decreases |xss|
  {
    if xss == [] then (h, s)
    else
      var (h1, s1) := Append(h, s, xss[0], gs[0]);
      AppendReads(h, s, xss[0], gs[0]);
      AppendAll(h1, s1, xss[1..], gs[1..])
  }

  function Concat<T>(xss: seq<seq<T>>): seq<T> {
    if xss == [] then [] else xss[0] + Concat(xss[1..])
  }

  /** What goes into the shared array: everything up to the first list that does not fit. */
  function InPlace<T>(room: nat, xss: seq<seq<T>>): (r: seq<T>)
    ensures |r| <= room
  {
    if xss == [] || |xss[0]| > room then [] else xss[0] + InPlace(room - |xss[0]|, xss[1..])
  }

  predicate AllFit<T>(room: nat, xss: seq<seq<T>>) {
    xss == [] || (|xss[0]| <= room && AllFit(room - |xss[0]|, xss[1..]))
  }

  lemma {:induction false} AllFitInPlace<T>(room: nat, xss: seq<seq<T>>)
    ensures AllFit(room, xss) ==> InPlace(room, xss) == Concat(xss)
  {
    if xss != [] && |xss[0]| <= room { AllFitInPlace(room - |xss[0]|, xss[1..]); }
  }

  /** An array nobody appends to keeps its contents. */
  lemma {:induction false} OthersKept<T>(h: Heap<T>, s: Slice, xss: seq<seq<T>>, gs: seq<Growth<T>>, b: nat)
    requires Live(h, s) && |gs| == |xss| && Fresh(h, gs) && b in h && b != s.backing
    ensures var h' := AppendAll(h, s, xss, gs).0; b in h' && h'[b] == h[b]
    decreases |xss|
  {
    if xss != [] {
      var (h1, s1) := Append(h, s, xss[0], gs[0]);
      AppendReads(h, s, xss[0], gs[0]);
      OthersKept(h1, s1, xss[1..], gs[1..], b);
    }
  }

  /** The result of a merge reads as the concatenation of its lists. */
  lemma {:induction false} MergeReads<T>(h: Heap<T>, s: Slice, xss: seq<seq<T>>, gs: seq<Growth<T>>)
    requires Live(h, s) && |gs| == |xss| && Fresh(h, gs)
    ensures var (h', r) := AppendAll(h, s, xss, gs);
      Live(h', r) && Contents(h', r) == Contents(h, s) + Concat(xss) && h.Keys <= h'.Keys
    decreases |xss|
  {
    if xss != [] {
      var (h1, s1) := Append(h, s, xss[0], gs[0]);
      AppendReads(h, s, xss[0], gs[0]);
      MergeReads(h1, s1, xss[1..], gs[1..]);
      assert Contents(h, s) + xss[0] + Concat(xss[1..]) == Contents(h, s) + (xss[0] + Concat(xss[1..]));
    } else {
      assert Contents(h, s) + [] == Contents(h, s);
    }
  }

  lemma OverwrittenTwice<T>(a: seq<T>, len: nat, xs: seq<T>, ys: seq<T>)
    requires len + |xs| + |ys| <= |a|
    ensures Overwritten(Overwritten(a, len, xs), len + |xs|, ys) == Overwritten(a, len, xs + ys)
  {
  }

  /** The shared array after a merge. */
  lemma {:induction false} SharedArray<T>(h: Heap<T>, s: Slice, xss: seq<seq<T>>, gs: seq<Growth<T>>, h': Heap<T>)
    requires Live(h, s) && |gs| == |xss| && Fresh(h, gs) && AppendAll(h, s, xss, gs).0 == h'
    ensures s.backing in h' && h'[s.backing] == Overwritten(h[s.backing], s.len, InPlace(Room(h, s), xss))
    decreases |xss|
  {
    NothingWritten(h[s.backing], s.len);
    if xss != [] {
      var (h1, s1) := Append(h, s, xss[0], gs[0]);
      OneStep(h, s, xss, gs);
      hide Overwritten, Append, AppendAll, Fresh;
      if |xss[0]| <= Room(h, s) {
        SharedArray(h1, s1, xss[1..], gs[1..], h');
        OverwrittenTwice(h[s.backing], s.len, xss[0], InPlace(Room(h1, s1), xss[1..]));
      } else {
        OthersKept(h1, s1, xss[1..], gs[1..], s.backing);
      }
    }
  }

  /** Where the result of a merge lives: in the shared array exactly when everything fits. */
  lemma {:induction false} ResultPlace<T>(h: Heap<T>, s: Slice, xss: seq<seq<T>>, gs: seq<Growth<T>>, r: Slice)
    requires Live(h, s) && |gs| == |xss| && Fresh(h, gs) && AppendAll(h, s, xss, gs).1 == r
    ensures AllFit(Room(h, s), xss) ==> r == Slice(s.backing, s.len + |InPlace(Room(h, s), xss)|)
    ensures !AllFit(Room(h, s), xss) ==> r.backing !in h
    decreases |xss|
  {
    if xss != [] {
      var (h1, s1) := Append(h, s, xss[0], gs[0]);
      OneStep(h, s, xss, gs);
      hide Overwritten, Append, AppendAll, Fresh;
      if |xss[0]| <= Room(h, s) {
        ResultPlace(h1, s1, xss[1..], gs[1..], r);
      } else {
        Grown(h1, s1, xss[1..], gs[1..], h);
      }
    }
  }

  /** A merge's first append, in place or into a new array, and the rest of the merge. */
  lemma {:induction false} OneStep<T>(h: Heap<T>, s: Slice, xss: seq<seq<T>>, gs: seq<Growth<T>>)
    requires Live(h, s) && |gs| == |xss| && Fresh(h, gs) && xss != []
    ensures var (h1, s1) := Append(h, s, xss[0], gs[0]);
      && Live(h1, s1) && Fresh(h1, gs[1..]) && h.Keys <= h1.Keys
      && AppendAll(h, s, xss, gs) == AppendAll(h1, s1, xss[1..], gs[1..])
      && (if |xss[0]| <= Room(h, s)
          then s1 == Slice(s.backing, s.len + |xss[0]|) && h1.Keys == h.Keys
               && h1[s.backing] == Overwritten(h[s.backing], s.len, xss[0])
          else s1.backing !in h && h1[s.backing] == h[s.backing])
  {
    AppendReads(h, s, xss[0], gs[0]);
  }

  lemma NothingWritten<T>(a: seq<T>, len: nat)
    requires len <= |a|
    ensures Overwritten(a, len, []) == a
  {
  }

  /** A result that has left an old heap's arrays never comes back to them. */
  lemma {:induction false} Grown<T>(h: Heap<T>, s: Slice, xss: seq<seq<T>>, gs: seq<Growth<T>>, older: Heap<T>)
    requires Live(h, s) && |gs| == |xss| && Fresh(h, gs) && s.backing !in older && older.Keys <= h.Keys
    ensures AppendAll(h, s, xss, gs).1.backing !in older
    decreases |xss|
  {
    if xss != [] {
      var (h1, s1) := Append(h, s, xss[0], gs[0]);
      AppendReads(h, s, xss[0], gs[0]);
      Grown(h1, s1, xss[1..], gs[1..], older);
    }
  }

  // ----- two merges from the same stored list -----

  /** Both lists begin alike, as far as the shorter one goes. */
  ghost predicate Agree<T>(xs: seq<T>, ys: seq<T>) {
    forall i :: 0 <= i < |xs| && i < |ys| ==> xs[i] == ys[i]
  }

  /** Writing `ys` over `xs` leaves `xs` readable exactly when they agree. */
  lemma {:induction false} SharedWrites<T>(a: seq<T>, len: nat, xs: seq<T>, ys: seq<T>)
    requires len + |xs| <= |a| && len + |ys| <= |a|
    ensures var a1 := Overwritten(a, len, xs);
      Overwritten(a1, len, ys)[..len + |xs|] == a1[..len + |xs|] <==> Agree(xs, ys)
  {
    var a1 := Overwritten(a, len, xs);
    var a2, n := Overwritten(a1, len, ys), len + |xs|;
    forall i | 0 <= i < |xs| ensures a1[len + i] == xs[i] {}
    forall i | 0 <= i < |xs| ensures a2[len + i] == if i < |ys| then ys[i] else xs[i] {}
    if a2[..n] == a1[..n] {
      forall i | 0 <= i < |xs| && i < |ys| ensures xs[i] == ys[i] {
        assert a2[..n][len + i] == a1[..n][len + i];
      }
    }
  }

  /**
   * Two merges start from the same stored list. The first result still reads as it was returned
   * exactly when the first merge had to allocate, or what the second wrote into the shared array,
   * up to its own first allocation, agrees with what the first had written there.
   */
  lemma {:induction false} EarlierResultSurvives<T>(
    h: Heap<T>, s: Slice, xss: seq<seq<T>>, gs: seq<Growth<T>>, h1: Heap<T>, r1: Slice,
    yss: seq<seq<T>>, gs': seq<Growth<T>>, h2: Heap<T>, r2: Slice)
    requires Live(h, s) && |gs| == |xss| && Fresh(h, gs) && AppendAll(h, s, xss, gs) == (h1, r1)
    requires Live(h1, s) && |gs'| == |yss| && Fresh(h1, gs') && AppendAll(h1, s, yss, gs') == (h2, r2)
    ensures Live(h1, r1) && Live(h2, r1)
    ensures Contents(h2, r1) == Contents(h1, r1)
      <==> !AllFit(Room(h, s), xss) || Agree(InPlace(Room(h, s), xss), InPlace(Room(h, s), yss))
  {
    hide AppendAll, InPlace, AllFit, Fresh, Overwritten, Agree, Concat, Contents;
    var room := Room(h, s);
    MergeReads(h, s, xss, gs);
    ResultPlace(h, s, xss, gs, r1);
    SharedArray(h, s, xss, gs, h1);
    SharedArray(h1, s, yss, gs', h2);
    if AllFit(room, xss) {
      ReadsThrough(h, s, InPlace(room, xss), InPlace(room, yss), h1, h2);
    } else {
      OthersKept(h1, s, yss, gs', r1.backing);
      SameArray(h1, h2, r1);
    }
  }

  lemma ReadsThrough<T>(h: Heap<T>, s: Slice, xs: seq<T>, ys: seq<T>, h1: Heap<T>, h2: Heap<T>)
    requires Live(h, s) && |xs| <= Room(h, s) && |ys| <= Room(h, s) && s.backing in h1 && s.backing in h2
    requires h1[s.backing] == Overwritten(h[s.backing], s.len, xs)
    requires h2[s.backing] == Overwritten(h1[s.backing], s.len, ys)
    ensures var r1 := Slice(s.backing, s.len + |xs|);
      Live(h1, r1) && Live(h2, r1) && (Contents(h2, r1) == Contents(h1, r1) <==> Agree(xs, ys))
  {
    hide Overwritten, Agree;
    SharedWrites(h[s.backing], s.len, xs, ys);
  }

  lemma SameArray<T>(h1: Heap<T>, h2: Heap<T>, r: Slice)
    requires Live(h1, r) && r.backing in h2 && h2[r.backing] == h1[r.backing]
    ensures Live(h2, r) && Contents(h2, r) == Contents(h1, r)
  {
  }

  // ----- lists as an evaluation leaves them -----

  /** Capacity after `n` appends of one element each, from nil: doubled when full, as Go does below 256 elements. */
  function OneByOne(n: nat): nat {
    if n == 0 then 0
    else
      var cap := OneByOne(n - 1);
      if n <= cap then cap else if cap == 0 then 1 else 2 * cap
  }

  /** Three breaches are the first list with room for another, five the first with room for two or more. */
  lemma FirstWithRoom()
    ensures OneByOne(0) == 0 && OneByOne(1) == 1 && OneByOne(2) == 2
    ensures OneByOne(3) == 4 && OneByOne(4) == 4 && OneByOne(5) == 8 && OneByOne(6) == 8
  {
  }

  /** Three stored breaches: a second merge replaces the breach the first one returned. */
  lemma EarlierResultChanges(a: string, b: string, c: string, first: string, second: string)
    requires first != second
    ensures var h: Heap<string> := map[0 := [a, b, c, ""]];
      var (h1, r1) := AppendAll(h, Slice(0, 3), [[first]], [Growth(1, [])]);
      && |h[0]| == OneByOne(3) && Live(h1, r1) && Contents(h1, r1) == [a, b, c, first]
      && Live(h1, Slice(0, 3)) && Fresh(h1, [Growth(2, [])])
      && var h2 := AppendAll(h1, Slice(0, 3), [[second]], [Growth(2, [])]).0;
         Live(h2, r1) && Contents(h2, r1) == [a, b, c, second]
  {
    FirstWithRoom();
    var h: Heap<string> := map[0 := [a, b, c, ""]];
    var h1 := h[0 := Overwritten(h[0], 3, [first])];
    assert AppendAll(h, Slice(0, 3), [[first]], [Growth(1, [])]) == (h1, Slice(0, 4)) by {
      OneAppend(h, Slice(0, 3), [first], Growth(1, []));
    }
    assert AppendAll(h1, Slice(0, 3), [[second]], [Growth(2, [])]).0 == h1[0 := Overwritten(h1[0], 3, [second])] by {
      OneAppend(h1, Slice(0, 3), [second], Growth(2, []));
    }
  }

  lemma OneAppend<T>(h: Heap<T>, s: Slice, xs: seq<T>, g: Growth<T>)
    requires Live(h, s) && g.backing !in h
    ensures AppendAll(h, s, [xs], [g]) == Append(h, s, xs, g)
  {
    AppendReads(h, s, xs, g);
    var (h1, s1) := Append(h, s, xs, g);
    assert [xs][1..] == [] && AppendAll(h1, s1, [], []) == (h1, s1);
  }

  /** Allocating late does not help: with room for two, appending one and then two still overwrites. */
  lemma LateAllocationOverwrites<T>(a: T, b: T, c: T, d: T, e: T)
    requires a != c
    ensures AllFit(2, [[a, b]]) && !AllFit(2, [[c], [d, e]])
    ensures !Agree(InPlace(2, [[a, b]]), InPlace(2, [[c], [d, e]]))
  {
    assert InPlace(2, [[a, b]])[0] == a;
    assert InPlace(2, [[c], [d, e]])[0] == c;
  }

  // ----- the lists a merge appends -----

  function BreachesOf(name: string): FrameworkResult -> seq<ControlBreach> {
    (fw: FrameworkResult) => if fw.framework == name then fw.breaches else []
  }

  /** A merged framework's breaches are those of all its results, in order. */
  lemma {:induction false} MergedBreaches(fws: seq<FrameworkResult>, name: string)
    ensures match M.Total(fws, name)
      case Some(fw) => fw.breaches == FlatMap(BreachesOf(name), fws)
      case None => FlatMap(BreachesOf(name), fws) == []
  {
    if fws != [] { MergedBreaches(fws[..|fws| - 1], name); }
  }
}
