/**
 * Triage rows: the persisted state of one finding across scans, its identity key, waivers
 * and their expiry, and the row order used for stable output.
 *
 * Clock readings are nanoseconds; stored timestamps are RFC 3339 text, which keeps whole
 * seconds, so a stored stamp is the reading rounded down. `None` is the empty string.
 */
module Rows {
  import opened Common
  import opened Ordering
  import opened Api

  const SECOND := 1_000_000_000

  /** A clock reading, formatted. */
  function Stamp(now: int): int {
    now / SECOND
  }

  /** A formatted stamp, parsed back. */
  function Instant(stamp: int): int {
    stamp * SECOND
  }

  lemma StampTruncates(now: int)
    ensures Instant(Stamp(now)) <= now < Instant(Stamp(now)) + SECOND
  {
  }

  datatype FindingState = Open | Acknowledged | InProgress | Resolved | RiskAccepted

  /** `expiresAt` is `None` when the stored text is missing or does not parse. */
  datatype Waiver = Waiver(justification: string, approvedBy: string, createdAt: int, expiresAt: Option<int>)

  datatype Row = Row(key: string, clusterId: string, findingId: string, resource: ResourceRef, state: FindingState,
                     assignee: string, waiver: Option<Waiver>, firstSeen: Option<int>, lastUpdated: Option<int>,
                     resolvedAt: Option<int>)

  predicate Active(w: Option<Waiver>, now: int) {
    w.Some? && w.value.expiresAt.Some? && now < Instant(w.value.expiresAt.value)
  }

  /** A risk acceptance whose waiver has lapsed is open again. */
  function EffectiveState(r: Row, now: int): FindingState {
    if r.state == RiskAccepted && !Active(r.waiver, now) then Open else r.state
  }

  predicate ActivelyWaived(r: Row, now: int) {
    r.state == RiskAccepted && Active(r.waiver, now)
  }

  function Effective(r: Row, now: int): Row {
    r.(state := EffectiveState(r, now))
  }

  /** Expiry applied twice is expiry applied once. */
  lemma EffectiveTwice(r: Row, now: int)
    ensures Effective(Effective(r, now), now) == Effective(r, now)
    ensures EffectiveState(Effective(r, now), now) == EffectiveState(r, now)
  {
  }

  /** A lapsed waiver never becomes active again. */
  lemma ExpiryIsFinal(r: Row, now: int, later: int)
    requires now <= later && r.state == RiskAccepted && EffectiveState(r, now) == Open
    ensures EffectiveState(r, later) == Open
  {
  }

  // ----- identity -----

  const NUL := "\0"

  /** The bytes hashed into a key: five fields, each closed by a NUL. */
  function Preimage(clusterId: string, findingId: string, r: ResourceRef): string {
    clusterId + NUL + (findingId + NUL + (r.kind + NUL + (r.namespace + NUL + (r.name + NUL))))
  }

  function Key(digest: string -> string, clusterId: string, f: Finding): string {
    digest(Preimage(clusterId, f.id, f.resource))
  }

  ghost predicate NulFree(clusterId: string, findingId: string, r: ResourceRef) {
    '\0' !in clusterId && '\0' !in findingId && '\0' !in r.kind && '\0' !in r.namespace && '\0' !in r.name
  }

  /** No other identity hashes the same bytes. */
  ghost predicate Unambiguous(c: string, id: string, r: ResourceRef) {
    forall c', id', r' :: Preimage(c', id', r') == Preimage(c, id, r) ==> c' == c && id' == id && r' == r
  }

  function Nuls(s: string): nat {
    if s == "" then 0 else Nuls(s[1..]) + if s[0] == '\0' then 1 else 0
  }

  lemma {:induction false} NulsConcat(a: string, b: string)
    ensures Nuls(a + b) == Nuls(a) + Nuls(b)
    ensures Nuls(a) == 0 <==> '\0' !in a
  {
    if a == "" {
      assert a + b == b;
    } else {
      assert (a + b)[1..] == a[1..] + b;
      NulsConcat(a[1..], b);
      assert a == [a[0]] + a[1..];
    }
  }

  lemma FieldNuls(a: string, x: string)
    ensures Nuls(a + NUL + x) == Nuls(a) + 1 + Nuls(x)
    ensures Nuls(a) == 0 <==> '\0' !in a
  {
    assert a + NUL + x == a + (NUL + x);
    NulsConcat(a, NUL + x);
    NulsConcat(NUL, x);
    assert Nuls(NUL) == 1 by { assert Nuls(NUL[1..]) == 0; }
  }

  lemma PreimageNuls(c: string, id: string, r: ResourceRef)
    ensures Nuls(Preimage(c, id, r)) >= 5
    ensures Nuls(Preimage(c, id, r)) == 5 <==> NulFree(c, id, r)
  {
    hide Nuls;
    var x4 := r.name + NUL + "";
    assert x4 == r.name + NUL;
    var x3 := r.namespace + NUL + x4;
    var x2 := r.kind + NUL + x3;
    var x1 := id + NUL + x2;
    FieldNuls(c, x1);
    FieldNuls(id, x2);
    FieldNuls(r.kind, x3);
    FieldNuls(r.namespace, x4);
    FieldNuls(r.name, "");
    NulsConcat("", "");
  }

  /** A NUL-free field can be told apart from what follows it. */
  lemma {:induction false} FieldInjective(a: string, b: string, x: string, y: string)
    requires '\0' !in a && '\0' !in b && a + NUL + x == b + NUL + y
    ensures a == b && x == y
  {
    if a == "" || b == "" {
      assert (a + NUL + x)[0] == (b + NUL + y)[0];
      assert a == b == "";
      assert (a + NUL + x)[1..] == x && (b + NUL + y)[1..] == y;
    } else {
      assert (a + NUL + x)[0] == a[0] && (b + NUL + y)[0] == b[0];
      assert (a + NUL + x)[1..] == a[1..] + NUL + x && (b + NUL + y)[1..] == b[1..] + NUL + y;
      FieldInjective(a[1..], b[1..], x, y);
    }
  }

  lemma PreimageInjective(c: string, id: string, r: ResourceRef, c': string, id': string, r': ResourceRef)
    requires NulFree(c, id, r) && Preimage(c, id, r) == Preimage(c', id', r')
    ensures c == c' && id == id' && r == r'
  {
    PreimageNuls(c, id, r);
    PreimageNuls(c', id', r');
    var x4, y4 := r.name + NUL + "", r'.name + NUL + "";
    assert x4 == r.name + NUL && y4 == r'.name + NUL;
    var x3, y3 := r.namespace + NUL + x4, r'.namespace + NUL + y4;
    var x2, y2 := r.kind + NUL + x3, r'.kind + NUL + y3;
    var x1, y1 := id + NUL + x2, id' + NUL + y2;
    FieldInjective(c, c', x1, y1);
    FieldInjective(id, id', x2, y2);
    FieldInjective(r.kind, r'.kind, x3, y3);
    FieldInjective(r.namespace, r'.namespace, x4, y4);
    FieldInjective(r.name, r'.name, "", "");
  }

  /** Cuts a field at its first NUL. */
  lemma CutAtNul(s: string) returns (p: string, q: string)
    requires '\0' in s
    ensures s == p + NUL + q && s != p
  {
    var i :| 0 <= i < |s| && s[i] == '\0';
    p, q := s[..i], s[i + 1..];
  }

  lemma Regroup(p: string, q: string, x: string)
    ensures p + NUL + q + NUL + x == p + NUL + (q + NUL + x)
  {
  }

  /** An identity with a NUL in a field shares its bytes with another one. */
  lemma NulMakesTwin(c: string, id: string, r: ResourceRef) returns (c': string, id': string, r': ResourceRef)
    requires !NulFree(c, id, r)
    ensures Preimage(c', id', r') == Preimage(c, id, r) && !(c' == c && id' == id && r' == r)
  {
    var tail := r.namespace + NUL + (r.name + NUL);
    assert tail == r.namespace + NUL + r.name + NUL;
    if '\0' in c {
      var p, q := CutAtNul(c);
      Regroup(p, q, id + NUL + (r.kind + NUL + tail));
      c', id', r' := p, q, ResourceRef(id, r.kind, r.namespace + NUL + r.name);
    } else if '\0' in id {
      var p, q := CutAtNul(id);
      Regroup(p, q, r.kind + NUL + tail);
      c', id', r' := c, p, ResourceRef(q, r.kind, r.namespace + NUL + r.name);
    } else if '\0' in r.kind {
      var p, q := CutAtNul(r.kind);
      Regroup(p, q, tail);
      c', id', r' := c, id, ResourceRef(p, q, r.namespace + NUL + r.name);
    } else if '\0' in r.namespace {
      var p, q := CutAtNul(r.namespace);
      Regroup(p, q, r.name + NUL);
      c', id', r' := c, id, ResourceRef(r.kind, p, q + NUL + r.name);
    } else {
      var p, q := CutAtNul(r.name);
      assert p + NUL + q + NUL == p + NUL + (q + NUL);
      assert r.namespace + NUL + (p + NUL + (q + NUL)) == r.namespace + NUL + p + NUL + (q + NUL);
      c', id', r' := c, id, ResourceRef(r.kind, r.namespace + NUL + p, q);
      assert |r'.name| < |r.name|;
    }
  }

  /** The NUL separators keep identities apart exactly for identities without a NUL in any field. */
  lemma UnambiguousIffNulFree(c: string, id: string, r: ResourceRef)
    ensures Unambiguous(c, id, r) <==> NulFree(c, id, r)
  {
    if NulFree(c, id, r) {
      forall c', id', r' | Preimage(c', id', r') == Preimage(c, id, r) ensures c' == c && id' == id && r' == r {
        PreimageInjective(c, id, r, c', id', r');
      }
    } else {
      var c', id', r' := NulMakesTwin(c, id, r);
    }
  }

  // ----- order -----

  predicate RowLess(a: Row, b: Row) {
    if a.findingId != b.findingId then StringLess(a.findingId, b.findingId) else StringLess(a.key, b.key)
  }

  lemma RowLessIsOrder()
    ensures StrictWeakOrder(RowLess)
  {
    forall x: Row, y: Row, z: Row
      ensures !RowLess(x, x)
      ensures RowLess(x, y) && RowLess(y, z) ==> RowLess(x, z)
      ensures RowLess(x, z) ==> RowLess(x, y) || RowLess(y, z)
    {
      StringLessTriple(x.findingId, y.findingId, z.findingId);
      StringLessTriple(x.key, y.key, z.key);
    }
  }

  ghost predicate DistinctKeys(rows: seq<Row>) {
    forall i, j :: 0 <= i < j < |rows| ==> rows[i].key != rows[j].key
  }

  /** Rows with distinct keys sort into one list, whatever order they arrived in. */
  lemma SortedRowsUnique(a: seq<Row>, b: seq<Row>)
    requires DistinctKeys(a) && DistinctKeys(b) && Within(a, b) && Within(b, a)
    ensures StableSort(RowLess, a) == StableSort(RowLess, b)
    ensures StrictlySorted(RowLess, StableSort(RowLess, a))
    ensures Within(StableSort(RowLess, a), a) && Within(a, StableSort(RowLess, a))
  {
    RowLessIsOrder();
    DistinctRowsComparable(a);
    DistinctRowsComparable(b);
    SortedWithoutTies(RowLess, a);
    SortedWithoutTies(RowLess, b);
    StrictlySortedUnique(RowLess, StableSort(RowLess, a), StableSort(RowLess, b));
  }

  lemma DistinctRowsComparable(a: seq<Row>)
    requires DistinctKeys(a)
    ensures NoDuplicates(a)
    ensures forall x, y :: x in a && y in a && x != y ==> RowLess(x, y) || RowLess(y, x)
  {
    forall x, y | x in a && y in a && x != y ensures RowLess(x, y) || RowLess(y, x) {
      var i :| 0 <= i < |a| && a[i] == x;
      var j :| 0 <= j < |a| && a[j] == y;
      assert i < j || j < i;
      StringLessTotal(x.findingId, y.findingId);
      StringLessTotal(x.key, y.key);
    }
  }

  /** Fields, each closed by a NUL. */
  function Closed(fields: seq<string>): string {
    if fields == [] then "" else fields[0] + NUL + Closed(fields[1..])
  }

  /** The bytes hashed: cluster, check, kind, namespace and name in this order. */
  lemma PreimageFields(c: string, id: string, r: ResourceRef)
    ensures Preimage(c, id, r) == Closed([c, id, r.kind, r.namespace, r.name])
  {
    var f4 := [r.name];
    var f3 := [r.namespace, r.name];
    var f2 := [r.kind, r.namespace, r.name];
    var f1 := [id, r.kind, r.namespace, r.name];
    assert f4[1..] == [] && f3[1..] == f4 && f2[1..] == f3 && f1[1..] == f2;
    assert [c, id, r.kind, r.namespace, r.name][1..] == f1;
    assert Closed(f4) == r.name + NUL + Closed([]) == r.name + NUL;
    assert Closed(f3) == r.namespace + NUL + Closed(f4);
    assert Closed(f2) == r.kind + NUL + Closed(f3);
    assert Closed(f1) == id + NUL + Closed(f2);
  }
}
