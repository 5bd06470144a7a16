/**
 * The triage lane: every current finding overlaid with its stored row, plus stored rows no
 * longer reported, with waiver expiry applied; and the summary counted from it.
 */
module TriageLane {
  import opened Common
  import opened Ordering
  import opened Api
  import opened Rows
  import opened Store
  import opened Dashboard

  // ----- the summary -----

  datatype Summary = Summary(open: nat, acknowledged: nat, inProgress: nat, resolved: nat, riskAccepted: nat,
                             meanHours: real)

  function CountOf(rows: seq<Row>, state: FindingState, now: int): nat {
    if rows == [] then 0
    else CountOf(rows[..|rows| - 1], state, now)
         + (if EffectiveState(rows[|rows| - 1], now) == state then 1 else 0)
  }

  /** Resolved with both times known and in order. */
  predicate Measured(r: Row) {
    r.state == Resolved && r.firstSeen.Some? && r.resolvedAt.Some? && r.resolvedAt.value >= r.firstSeen.value
  }

  function MeasuredCount(rows: seq<Row>): nat {
    if rows == [] then 0
    else MeasuredCount(rows[..|rows| - 1]) + (if Measured(rows[|rows| - 1]) then 1 else 0)
  }

  function TotalHours(rows: seq<Row>): real {
    if rows == [] then 0.0
    else TotalHours(rows[..|rows| - 1])
         + (var r := rows[|rows| - 1];
            if Measured(r) then (r.resolvedAt.value - r.firstSeen.value) as real / 3600.0 else 0.0)
  }

  function Summarized(rows: seq<Row>, now: int): Summary {
    Summary(CountOf(rows, Open, now), CountOf(rows, Acknowledged, now), CountOf(rows, InProgress, now),
            CountOf(rows, Resolved, now), CountOf(rows, RiskAccepted, now),
            if MeasuredCount(rows) > 0 then TotalHours(rows) / MeasuredCount(rows) as real else 0.0)
  }

  method ComputeMTTR(rows: seq<Row>, now: int) returns (s: Summary)
    ensures s == Summarized(rows, now)
  {
    hide EffectiveState, Measured;
    var open, acknowledged, inProgress, resolved, riskAccepted := 0, 0, 0, 0, 0;
    var totalHours, measured := 0.0, 0;
    for i := 0 to |rows|
      invariant open == CountOf(rows[..i], Open, now) && acknowledged == CountOf(rows[..i], Acknowledged, now)
      invariant inProgress == CountOf(rows[..i], InProgress, now) && resolved == CountOf(rows[..i], Resolved, now)
      invariant riskAccepted == CountOf(rows[..i], RiskAccepted, now)
      invariant totalHours == TotalHours(rows[..i]) && measured == MeasuredCount(rows[..i])
    {
      assert rows[..i + 1][..i] == rows[..i];
      match EffectiveState(rows[i], now) {
        case Open => open := open + 1;
        case Acknowledged => acknowledged := acknowledged + 1;
        case InProgress => inProgress := inProgress + 1;
        case Resolved => resolved := resolved + 1;
        case RiskAccepted => riskAccepted := riskAccepted + 1;
      }
      if Measured(rows[i]) {
        MeasuredTimes(rows[i]);
        totalHours := totalHours + (rows[i].resolvedAt.value - rows[i].firstSeen.value) as real / 3600.0;
        measured := measured + 1;
      }
    }
    assert rows[..|rows|] == rows;
    s := Summary(open, acknowledged, inProgress, resolved, riskAccepted,
                 if measured > 0 then totalHours / measured as real else 0.0);
  }

  lemma MeasuredTimes(r: Row)
    requires Measured(r)
    ensures r.firstSeen.Some? && r.resolvedAt.Some?
  {
  }

  /** The five counters partition the rows. */
  lemma {:induction false} CountersPartition(rows: seq<Row>, now: int)
    ensures var s := Summarized(rows, now);
      s.open + s.acknowledged + s.inProgress + s.resolved + s.riskAccepted == |rows|
  {
    hide EffectiveState;
    if rows != [] { CountersPartition(rows[..|rows| - 1], now); }
  }

  /** The mean is never negative. */
  lemma {:induction false} MeanNonNegative(rows: seq<Row>)
    ensures TotalHours(rows) >= 0.0
  {
    if rows != [] { MeanNonNegative(rows[..|rows| - 1]); }
  }

  // ----- waived keys -----

  function WaivedIn(rows: map<string, Row>, now: int): set<string> {
    set k | k in rows && ActivelyWaived(rows[k], now)
  }

  /** The keys enforcement suppresses. */
  function Waived(s: Store, t: string, clusterId: string, now: int): set<string> {
    WaivedIn(OfCluster(RowsOf(s, t), clusterId), now)
  }

  lemma ListedRows(s: Store, t: string, clusterId: string)
    requires ValidStore(s)
    ensures var rows := OfCluster(RowsOf(s, t), clusterId);
      && Keyed(rows) && DistinctKeys(ListLifecycle(s, t, clusterId))
      && forall r :: r in ListLifecycle(s, t, clusterId) <==> r.key in rows && rows[r.key] == r
  {
    hide Enumerated, ValidTenant, StableSort, RowLess;
    var rows := OfCluster(RowsOf(s, t), clusterId);
    assert Keyed(rows) by { assert Keyed(RowsOf(s, t)); }
    EnumeratedRows(rows);
    var e := Enumerated(rows);
    SortedRowsUnique(e, e);
    NoDuplicateRows(rows, StableSort(RowLess, e));
  }

  method WaivedKeys(store: MemStore, tenant: string, clusterId: string, now: int) returns (out: set<string>)
    requires store.Valid()
    ensures out == Waived(store.State(), tenant, clusterId, now)
  {
    hide ListLifecycle, ActivelyWaived, OfCluster;
    var rows := store.List(tenant, clusterId);
    ListedRows(store.State(), tenant, clusterId);
    out := {};
    for i := 0 to |rows|
      invariant out == set r | r in rows[..i] && ActivelyWaived(r, now) :: r.key
    {
      assert rows[..i + 1] == rows[..i] + [rows[i]];
      if ActivelyWaived(rows[i], now) {
        out := out + {rows[i].key};
      }
    }
    assert rows[..|rows|] == rows;
    ghost var m := OfCluster(RowsOf(store.State(), tenant), clusterId);
    forall k | k in WaivedIn(m, now) ensures k in out { assert m[k] in rows; }
  }

  // ----- the lane -----

  function CurrentKeys(digest: string -> string, cs: seq<Current>): set<string> {
    set c | c in cs :: Key(digest, c.clusterId, c.finding)
  }

  /** The row shown for a key: the stored one, else an open one for the first such finding. */
  function LaneRow(digest: string -> string, stored: map<string, Row>, cs: seq<Current>, key: string,
                   now: int): Option<Row> {
    if key in stored then Some(Effective(stored[key], now))
    else match FirstWithKey(digest, cs, key)
         case Some(c) => Some(Effective(OpenRow(key, c, None), now))
         case None => None
  }

  function LaneClusters(s: Store, t: string, clusterId: string): seq<string> {
    if clusterId != "" then [clusterId] else ClusterIds(s, t)
  }

  function LaneFindings(s: Store, t: string, clusterId: string): seq<Current> {
    FlatMap(CurrentOf(s, t), LaneClusters(s, t, clusterId))
  }

  lemma KeyFound(digest: string -> string, cs: seq<Current>, key: string)
    ensures key in CurrentKeys(digest, cs) <==> FirstWithKey(digest, cs, key).Some?
  {
  }

  /** One row per stored key and per current finding key. */
  function Lane(digest: string -> string, stored: map<string, Row>, cs: seq<Current>, now: int): map<string, Row> {
    map k | k in stored.Keys + CurrentKeys(digest, cs) ::
      (KeyFound(digest, cs, k); LaneRow(digest, stored, cs, k, now).value)
  }

  lemma LaneKeyed(digest: string -> string, stored: map<string, Row>, cs: seq<Current>, now: int)
    requires Keyed(stored)
    ensures Keyed(Lane(digest, stored, cs, now))
  {
    hide FirstWithKey, Key;
    forall k | k in Lane(digest, stored, cs, now) ensures Lane(digest, stored, cs, now)[k].key == k {
      KeyFound(digest, cs, k);
    }
  }

  /** The overlay so far: exactly one item per current key already met. */
  ghost predicate Laid(digest: string -> string, stored: map<string, Row>, done: seq<Current>, now: int,
                       items: seq<Row>, seen: set<string>)
  {
    && DistinctKeys(items)
    && seen == CurrentKeys(digest, done)
    && forall r :: r in items <==> r.key in seen && LaneRow(digest, stored, done, r.key, now) == Some(r)
  }

  lemma LaidSkip(digest: string -> string, stored: map<string, Row>, done: seq<Current>, now: int,
                 items: seq<Row>, seen: set<string>, c: Current)
    requires Laid(digest, stored, done, now, items, seen)
    requires Key(digest, c.clusterId, c.finding) in seen
    ensures Laid(digest, stored, done + [c], now, items, seen)
  {
    hide Key, FirstWithKey;
    forall k ensures k in seen ==> FirstWithKey(digest, done + [c], k) == FirstWithKey(digest, done, k) {
      FirstWithKeyConcat(digest, done, [c], k);
      KeyFound(digest, done, k);
    }
  }

  lemma LaidAdd(digest: string -> string, stored: map<string, Row>, done: seq<Current>, now: int,
                items: seq<Row>, seen: set<string>, c: Current, row: Row)
    requires Laid(digest, stored, done, now, items, seen) && Keyed(stored)
    requires Key(digest, c.clusterId, c.finding) !in seen
    requires row == (var k := Key(digest, c.clusterId, c.finding);
                     Effective(if k in stored then stored[k] else OpenRow(k, c, None), now))
    ensures Laid(digest, stored, done + [c], now, items + [row], seen + {Key(digest, c.clusterId, c.finding)})
  {
    var key := Key(digest, c.clusterId, c.finding);
    SingleWithKey(digest, c);
    hide Key, FirstWithKey;
    forall k ensures k in seen + {key} ==>
      FirstWithKey(digest, done + [c], k) == if k in seen then FirstWithKey(digest, done, k) else Some(c)
    {
      FirstWithKeyConcat(digest, done, [c], k);
      KeyFound(digest, done, k);
    }
    assert row.key == key;
    assert forall i :: 0 <= i < |items| ==> items[i] in items;
    assert forall r :: r in items + [row] <==> r in items || r == row;
  }

  lemma SingleWithKey(digest: string -> string, c: Current)
    ensures FirstWithKey(digest, [c], Key(digest, c.clusterId, c.finding)) == Some(c)
  {
  }

  method OverlayReport(digest: string -> string, stored: map<string, Row>, ghost done: seq<Current>, now: int,
                       items0: seq<Row>, seen0: set<string>, clusterId: string, findings: seq<Finding>)
    returns (items: seq<Row>, seen: set<string>)
    requires Laid(digest, stored, done, now, items0, seen0) && Keyed(stored)
    ensures Laid(digest, stored, done + FlatMap(Tagged(clusterId), findings), now, items, seen)
  {
    hide Laid, FlatMap, Key, Keyed;
    items, seen := items0, seen0;
    FlatMapEnds(Tagged(clusterId), findings);
    assert done + [] == done;
    for i := 0 to |findings|
      invariant Laid(digest, stored, done + FlatMap(Tagged(clusterId), findings[..i]), now, items, seen)
    {
      FlatMapStep(Tagged(clusterId), findings, i);
      ghost var before := done + FlatMap(Tagged(clusterId), findings[..i]);
      ghost var c := Current(clusterId, findings[i]);
      assert done + FlatMap(Tagged(clusterId), findings[..i + 1]) == before + [c];
      var key := Key(digest, clusterId, findings[i]);
      if key in seen {
        LaidSkip(digest, stored, before, now, items, seen, c);
        continue;
      }
      var row := if key in stored then stored[key] else OpenRow(key, Current(clusterId, findings[i]), None);
      row := row.(state := EffectiveState(row, now));
      LaidAdd(digest, stored, before, now, items, seen, c, row);
      items := items + [row];
      seen := seen + {key};
    }
  }

  /** Adds the stored rows no report mentions, in whatever order the map yields them. */
  method AddUnreported(digest: string -> string, stored: map<string, Row>, ghost cs: seq<Current>, now: int,
                       items0: seq<Row>, seen: set<string>) returns (items: seq<Row>)
    requires Laid(digest, stored, cs, now, items0, seen) && Keyed(stored)
    ensures DistinctKeys(items)
    ensures forall r :: r in items <==>
      r.key in Lane(digest, stored, cs, now) && Lane(digest, stored, cs, now)[r.key] == r
  {
    hide Key, FirstWithKey;
    items := items0;
    var todo := stored.Keys - seen;
    while todo != {}
      invariant todo <= stored.Keys - seen && DistinctKeys(items)
      invariant forall r :: r in items <==>
        (r.key in seen || (r.key in stored && r.key !in todo)) && LaneRow(digest, stored, cs, r.key, now) == Some(r)
      decreases todo
    {
      var k :| k in todo;
      todo := todo - {k};
      var row := stored[k].(state := EffectiveState(stored[k], now));
      assert row.key == k && LaneRow(digest, stored, cs, k, now) == Some(row);
      assert forall i :: 0 <= i < |items| ==> items[i] in items;
      items := items + [row];
    }
    forall k ensures k in CurrentKeys(digest, cs) <==> FirstWithKey(digest, cs, k).Some? { KeyFound(digest, cs, k); }
  }

  function StoredOf(s: Store, t: string, clusterId: string): map<string, Row> {
    OfCluster(RowsOf(s, t), clusterId)
  }

  ghost function LaneOf(digest: string -> string, s: Store, t: string, clusterId: string, now: int): map<string, Row> {
    Lane(digest, StoredOf(s, t, clusterId), LaneFindings(s, t, clusterId), now)
  }

  method IndexRows(store: MemStore, tenant: string, clusterId: string) returns (stored: map<string, Row>)
    requires store.Valid()
    ensures stored == StoredOf(store.State(), tenant, clusterId) && Keyed(stored)
  {
    hide ListLifecycle, OfCluster;
    var rows := store.List(tenant, clusterId);
    ListedRows(store.State(), tenant, clusterId);
    ghost var m := StoredOf(store.State(), tenant, clusterId);
    stored := map[];
    for i := 0 to |rows|
      invariant forall k :: k in stored <==> exists j :: 0 <= j < i && rows[j].key == k
      invariant forall k :: k in stored ==> k in m && stored[k] == m[k]
    {
      assert rows[i] in rows;
      stored := stored[rows[i].key := rows[i]];
    }
    forall k | k in m ensures k in stored {
      assert m[k] in rows;
      var j :| 0 <= j < |rows| && rows[j] == m[k];
    }
    assert stored.Keys == m.Keys;
  }

  method LaneIds(store: MemStore, tenant: string, cluster: string) returns (ids: seq<string>)
    requires store.Valid()
    ensures ids == LaneClusters(store.State(), tenant, cluster)
  {
    hide FlatMap, ListClusters;
    if cluster != "" {
      return [cluster];
    }
    var clusters := store.Clusters(tenant);
    ids := [];
    FlatMapEnds(IdOf, clusters);
    for i := 0 to |clusters|
      invariant ids == FlatMap(IdOf, clusters[..i])
    {
      FlatMapStep(IdOf, clusters, i);
      ids := ids + [clusters[i].id];
    }
  }

  /**
   * The list handler. Its items are the lane's rows in the one order finding id and key fix,
   * whatever order any map was iterated in, and the summary is counted from them.
   */
  method HandleListLifecycle(store: MemStore, digest: string -> string, tenant: string, cluster: string, now: int)
    returns (items: seq<Row>, mttr: Summary)
    requires store.Valid()
    ensures items == SortedRows(LaneOf(digest, store.State(), tenant, cluster, now))
    ensures mttr == Summarized(items, now)
    ensures mttr.open == |Shown(items, Open)| && mttr.acknowledged == |Shown(items, Acknowledged)|
    ensures mttr.inProgress == |Shown(items, InProgress)| && mttr.resolved == |Shown(items, Resolved)|
    ensures mttr.riskAccepted == |Shown(items, RiskAccepted)|
  {
    hide FlatMap, Key, FirstWithKey, Laid, StoredOf, Lane, GetReport, StableSort, RowLess, LaneClusters, Summarized,
      Keyed, SortedRows;
    var stored := IndexRows(store, tenant, cluster);
    var ids := LaneIds(store, tenant, cluster);
    ghost var s := store.State();
    var seen: set<string> := {};
    items := [];
    FlatMapEnds(CurrentOf(s, tenant), ids);
    NothingLaid(digest, stored, now);
    for i := 0 to |ids|
      invariant Laid(digest, stored, FlatMap(CurrentOf(s, tenant), ids[..i]), now, items, seen)
    {
      FlatMapStep(CurrentOf(s, tenant), ids, i);
      var rep := store.LatestReport(tenant, ids[i]);
      if rep.None? {
        assert FlatMap(CurrentOf(s, tenant), ids[..i]) + [] == FlatMap(CurrentOf(s, tenant), ids[..i]);
        continue;
      }
      items, seen := OverlayReport(digest, stored, FlatMap(CurrentOf(s, tenant), ids[..i]), now, items, seen,
                                   ids[i], rep.value.findings);
    }
    items := AddUnreported(digest, stored, FlatMap(CurrentOf(s, tenant), ids), now, items, seen);
    LaneKeyed(digest, stored, FlatMap(CurrentOf(s, tenant), ids), now);
    SortedRowsOf(Lane(digest, stored, FlatMap(CurrentOf(s, tenant), ids), now), items);
    items := StableSort(RowLess, items);
    mttr := ComputeMTTR(items, now);
    CountersAreShown(digest, s, tenant, cluster, now);
  }

  /** The keys shown in a state. */
  ghost function Shown(items: seq<Row>, state: FindingState): set<string> {
    set r | r in items && r.state == state :: r.key
  }

  lemma KeysAreShown(items: seq<Row>, state: FindingState)
    ensures KeysIn(items, state) == Shown(items, state)
  {
    forall k ensures k in KeysIn(items, state) <==> k in Shown(items, state) { KeysInMembers(items, state, k); }
  }

  /** Each counter of the lane's summary is the number of keys the lane shows in that state. */
  lemma CountersAreShown(digest: string -> string, s: Store, t: string, clusterId: string, now: int)
    requires ValidStore(s)
    ensures var items := SortedRows(LaneOf(digest, s, t, clusterId, now));
      var m := Summarized(items, now);
      && m.open == |Shown(items, Open)| && m.acknowledged == |Shown(items, Acknowledged)|
      && m.inProgress == |Shown(items, InProgress)| && m.resolved == |Shown(items, Resolved)|
      && m.riskAccepted == |Shown(items, RiskAccepted)|
  {
    hide LaneOf, SortedRows, ValidStore, EffectiveState, KeysIn, CountOf, MeasuredCount, TotalHours, Shown;
    var lane := LaneOf(digest, s, t, clusterId, now);
    LaneRefines(digest, s, t, clusterId, now);
    LaneRows(lane);
    var items := SortedRows(lane);
    forall r | r in items ensures EffectiveState(r, now) == r.state {
      LaneIsEffective(digest, s, t, clusterId, now, r.key);
    }
    forall state: FindingState ensures CountOf(items, state, now) == |Shown(items, state)| {
      CountIsKeys(items, state, now);
      KeysAreShown(items, state);
    }
  }

  lemma NothingLaid(digest: string -> string, stored: map<string, Row>, now: int)
    ensures Laid(digest, stored, [], now, [], {})
  {
  }

  // ----- what the lane shows -----

  lemma LaneRows(lane: map<string, Row>)
    requires Keyed(lane)
    ensures DistinctKeys(SortedRows(lane)) && StrictlySorted(RowLess, SortedRows(lane))
    ensures |SortedRows(lane)| == |lane|
    ensures forall r :: r in SortedRows(lane) <==> r.key in lane && lane[r.key] == r
  {
    hide Enumerated, StableSort, RowLess;
    EnumeratedRows(lane);
    var e := Enumerated(lane);
    SortedRowsUnique(e, e);
    EnumeratedCount(lane);
    SameElements(StableSort(RowLess, e), e);
    NoDuplicateRows(lane, SortedRows(lane));
  }

  lemma NoDuplicateRows(lane: map<string, Row>, rows: seq<Row>)
    requires Keyed(lane) && StrictlySorted(RowLess, rows)
    requires forall r :: r in rows <==> r.key in lane && lane[r.key] == r
    ensures DistinctKeys(rows)
  {
    forall i, j | 0 <= i < j < |rows| ensures rows[i].key != rows[j].key {
      assert rows[i] in rows && rows[j] in rows;
      StringLessTotal(rows[i].key, rows[j].key);
    }
  }

  lemma {:induction false} EnumeratedCount(lane: map<string, Row>)
    ensures |Enumerated(lane)| == |lane|
    decreases |lane|
  {
    if lane != map[] {
      var k :| k in lane.Keys && Enumerated(lane) == Enumerated(lane - {k}) + [lane[k]];
      EnumeratedCount(lane - {k});
      assert lane.Keys == (lane - {k}).Keys + {k};
    }
  }

  /**
   * Exactly one row per key in stored keys and current finding keys; risk-accepted is shown
   * exactly for the keys enforcement waives.
   */
  lemma LaneRefines(digest: string -> string, s: Store, t: string, clusterId: string, now: int)
    requires ValidStore(s)
    ensures var lane := LaneOf(digest, s, t, clusterId, now);
      && Keyed(lane)
      && lane.Keys == StoredOf(s, t, clusterId).Keys + CurrentKeys(digest, LaneFindings(s, t, clusterId))
      && (forall k :: k in lane ==> (lane[k].state == RiskAccepted <==> k in Waived(s, t, clusterId, now)))
      && Waived(s, t, clusterId, now) <= lane.Keys
  {
    hide LaneFindings, Key, FirstWithKey;
    var stored, cs := StoredOf(s, t, clusterId), LaneFindings(s, t, clusterId);
    assert Keyed(stored) by { assert Keyed(RowsOf(s, t)); }
    LaneKeyed(digest, stored, cs, now);
    forall k | k in LaneOf(digest, s, t, clusterId, now)
      ensures LaneOf(digest, s, t, clusterId, now)[k].state == RiskAccepted <==> k in Waived(s, t, clusterId, now)
    {
      KeyFound(digest, cs, k);
    }
  }

  /** The keys of the rows in a state. */
  function KeysIn(rows: seq<Row>, state: FindingState): set<string> {
    if rows == [] then {}
    else KeysIn(rows[..|rows| - 1], state) + if rows[|rows| - 1].state == state then {rows[|rows| - 1].key} else {}
  }

  lemma {:induction false} KeysInMembers(rows: seq<Row>, state: FindingState, k: string)
    ensures k in KeysIn(rows, state) <==> exists r :: r in rows && r.state == state && r.key == k
  {
    if rows != [] {
      KeysInMembers(rows[..|rows| - 1], state, k);
      assert rows == rows[..|rows| - 1] + [rows[|rows| - 1]];
    }
  }

  /** Counting effective states of rows that are already effective counts their keys once. */
  lemma {:induction false} CountIsKeys(rows: seq<Row>, state: FindingState, now: int)
    requires DistinctKeys(rows)
    requires forall r :: r in rows ==> EffectiveState(r, now) == r.state
    ensures CountOf(rows, state, now) == |KeysIn(rows, state)|
  {
    hide EffectiveState;
    if rows != [] {
      var front, last := rows[..|rows| - 1], rows[|rows| - 1];
      assert last in rows;
      CountIsKeys(front, state, now);
      KeysInMembers(front, state, last.key);
      assert last.key !in KeysIn(front, state);
    }
  }

  /** The summary's risk-accepted counter is the number of waived keys, although expiry is applied twice. */
  lemma RiskAcceptedCount(digest: string -> string, s: Store, t: string, clusterId: string, now: int)
    requires ValidStore(s)
    ensures Summarized(SortedRows(LaneOf(digest, s, t, clusterId, now)), now).riskAccepted
      == |Waived(s, t, clusterId, now)|
  {
    hide LaneOf, Waived, SortedRows, ValidStore, EffectiveState, KeysIn, CountOf, MeasuredCount, TotalHours;
    var lane := LaneOf(digest, s, t, clusterId, now);
    LaneRefines(digest, s, t, clusterId, now);
    LaneRows(lane);
    var rows := SortedRows(lane);
    forall r | r in rows ensures EffectiveState(r, now) == r.state {
      LaneIsEffective(digest, s, t, clusterId, now, r.key);
    }
    CountIsKeys(rows, RiskAccepted, now);
    forall k ensures k in KeysIn(rows, RiskAccepted) <==> k in Waived(s, t, clusterId, now) {
      KeysInMembers(rows, RiskAccepted, k);
      if k in Waived(s, t, clusterId, now) { assert lane[k] in rows; }
    }
    assert KeysIn(rows, RiskAccepted) == Waived(s, t, clusterId, now);
  }

  lemma LaneIsEffective(digest: string -> string, s: Store, t: string, clusterId: string, now: int, k: string)
    requires k in LaneOf(digest, s, t, clusterId, now)
    ensures EffectiveState(LaneOf(digest, s, t, clusterId, now)[k], now)
      == LaneOf(digest, s, t, clusterId, now)[k].state
  {
    hide LaneFindings, StoredOf, FirstWithKey, Key, EffectiveState;
    var stored, cs := StoredOf(s, t, clusterId), LaneFindings(s, t, clusterId);
    KeyFound(digest, cs, k);
    EffectiveTwice(if k in stored then stored[k] else OpenRow(k, FirstWithKey(digest, cs, k).value, None), now);
  }

  /** Lane and summary together: one entry per key, and counters that sum to the number of entries. */
  lemma LaneTotals(digest: string -> string, s: Store, t: string, clusterId: string, now: int)
    requires ValidStore(s)
    ensures var rows := SortedRows(LaneOf(digest, s, t, clusterId, now));
      var m := Summarized(rows, now);
      m.open + m.acknowledged + m.inProgress + m.resolved + m.riskAccepted == |rows|
      == |StoredOf(s, t, clusterId).Keys + CurrentKeys(digest, LaneFindings(s, t, clusterId))|
  {
    hide LaneOf, SortedRows, ValidStore, LaneFindings, StoredOf;
    LaneRefines(digest, s, t, clusterId, now);
    LaneRows(LaneOf(digest, s, t, clusterId, now));
    CountersPartition(SortedRows(LaneOf(digest, s, t, clusterId, now)), now);
  }

  /**
   * A stored row is shown as stored, except that a lapsed acceptance reads open; an untracked key is
   * shown as an open row of the first current finding with that key.
   */
  lemma LaneShows(digest: string -> string, s: Store, t: string, clusterId: string, now: int, k: string)
    requires k in LaneOf(digest, s, t, clusterId, now)
    ensures var shown, stored := LaneOf(digest, s, t, clusterId, now)[k], StoredOf(s, t, clusterId);
      if k in stored then
        && shown == stored[k].(state := shown.state)
        && shown.state == if stored[k].state == RiskAccepted && !Active(stored[k].waiver, now) then Open
                          else stored[k].state
      else exists i ::
        (&& FirstAt(digest, LaneFindings(s, t, clusterId), k, i)
         && var c := LaneFindings(s, t, clusterId)[i];
            && shown.key == k && shown.clusterId == c.clusterId && shown.findingId == c.finding.id
            && shown.resource == c.finding.resource && shown.state == Open && shown.waiver == None)
  {
    hide LaneFindings, StoredOf, Key, Active;
    var cs := LaneFindings(s, t, clusterId);
    KeyFound(digest, cs, k);
    if k !in StoredOf(s, t, clusterId) {
      var i := FirstIndex(digest, cs, k);
    }
  }

  /** Position `i` holds the first current finding with the key. */
  ghost predicate FirstAt(digest: string -> string, cs: seq<Current>, k: string, i: int) {
    && 0 <= i < |cs| && Key(digest, cs[i].clusterId, cs[i].finding) == k
    && forall j :: 0 <= j < i ==> Key(digest, cs[j].clusterId, cs[j].finding) != k
  }

  lemma {:induction false} FirstIndex(digest: string -> string, cs: seq<Current>, k: string) returns (i: nat)
    requires FirstWithKey(digest, cs, k).Some?
    ensures FirstAt(digest, cs, k, i) && FirstWithKey(digest, cs, k) == Some(cs[i])
  {
    hide Key;
    if Key(digest, cs[0].clusterId, cs[0].finding) == k {
      i := 0;
    } else {
      i := FirstIndex(digest, cs[1..], k);
      assert forall j :: 0 < j <= i ==> cs[j] == cs[1..][j - 1];
      i := i + 1;
    }
  }

  // ----- the mean time to resolve -----

  /** Hours from the first sighting to the resolution, for a resolved row that has both in order. */
  ghost predicate Took(r: Row, hours: real) {
    && r.state == Resolved && r.firstSeen.Some? && r.resolvedAt.Some? && r.firstSeen.value <= r.resolvedAt.value
    && hours * 3600.0 == (r.resolvedAt.value - r.firstSeen.value) as real
  }

  /** The mean over rows that all took the same time is that time, and rows without one do not count. */
  lemma MeanOfEqual(rows: seq<Row>, now: int, hours: real)
    requires exists r :: r in rows && Took(r, hours)
    requires forall r, h: real :: r in rows && Took(r, h) ==> h == hours
    ensures Summarized(rows, now).meanHours == hours
  {
    hide CountOf;
    forall r | r in rows && Measured(r) ensures Took(r, hours) {
      assert Took(r, Hours(r));
    }
    var r :| r in rows && Took(r, hours);
    assert Measured(r);
    TotalBetween(rows, hours, hours);
    SomeMeasured(rows, r);
    var n := MeasuredCount(rows) as real;
    assert TotalHours(rows) == hours * n;
    Multiple(hours, n);
  }

  lemma Multiple(x: real, n: real)
    requires n > 0.0
    ensures (x * n) / n == x
  {
  }

  lemma {:induction false} SomeMeasured(rows: seq<Row>, r: Row)
    requires r in rows && Measured(r)
    ensures MeasuredCount(rows) > 0
  {
    var front := rows[..|rows| - 1];
    assert rows == front + [rows[|rows| - 1]];
    if r in front { SomeMeasured(front, r); }
  }

  function Hours(r: Row): real
    requires Measured(r)
  {
    (r.resolvedAt.value - r.firstSeen.value) as real / 3600.0
  }

  ghost predicate Between(lo: real, hi: real, n: nat, total: real) {
    lo * n as real <= total <= hi * n as real
  }

  lemma OneMoreBetween(lo: real, hi: real, n: nat, total: real, hours: real)
    requires Between(lo, hi, n, total) && lo <= hours <= hi
    ensures Between(lo, hi, n + 1, total + hours)
  {
    assert (n + 1) as real == n as real + 1.0;
  }

  lemma OneMoreRow(rows: seq<Row>)
    requires rows != []
    ensures var front, last := rows[..|rows| - 1], rows[|rows| - 1];
      if Measured(last)
      then MeasuredCount(rows) == MeasuredCount(front) + 1 && TotalHours(rows) == TotalHours(front) + Hours(last)
      else MeasuredCount(rows) == MeasuredCount(front) && TotalHours(rows) == TotalHours(front)
  {
  }

  lemma {:induction false} TotalBetween(rows: seq<Row>, lo: real, hi: real)
    requires forall r :: r in rows && Measured(r) ==> lo <= Hours(r) <= hi
    ensures Between(lo, hi, MeasuredCount(rows), TotalHours(rows))
  {
    if rows != [] {
      hide Between, MeasuredCount, TotalHours, Hours, Measured;
      var front, last := rows[..|rows| - 1], rows[|rows| - 1];
      assert last in rows;
      TotalBetween(front, lo, hi);
      OneMoreRow(rows);
      if Measured(last) {
        OneMoreBetween(lo, hi, MeasuredCount(front), TotalHours(front), Hours(last));
      }
    }
  }
}
