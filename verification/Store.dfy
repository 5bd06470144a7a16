/**
 * The in-memory, tenant-partitioned store. Pure functions give the meaning of every call on
 * the store's value; the class below performs the calls in place and is proved against them.
 */
module Store {
  import opened Common
  import opened Ordering
  import opened Api
  import opened Rows
  import M = Merge

  datatype Cluster = Cluster(id: string, name: string, environment: string, lastScanAt: Option<int>,
                             totalFindings: nat, overallPassRate: real)

  datatype ScanStatus = Queued | Running | Succeeded | Failed

  datatype Scan = Scan(id: string, clusterId: string, status: ScanStatus, startedAt: Option<int>,
                       finishedAt: Option<int>, totalFindings: nat)

  datatype Snapshot = Snapshot(scanId: string, at: int, totalFindings: nat, controlsAssessed: nat,
                               controlsBreached: nat, overallPassRate: real, bySeverity: map<Severity, nat>)

  /** `scans` is newest first, `history` oldest first. */
  datatype ClusterState = ClusterState(meta: Cluster, latest: Report, hasScan: bool, scans: seq<Scan>,
                                       history: seq<Snapshot>)

  datatype TenantState = TenantState(clusters: map<string, ClusterState>, order: seq<string>, displayName: string)

  datatype Store = Store(tenants: map<string, TenantState>, lifecycle: map<string, map<string, Row>>)

  const EMPTY_TENANT := TenantState(map[], [], "")

  const EMPTY_STORE := Store(map[], map[])

  // ----- one tenant -----

  function Registered(ts: TenantState, c: Cluster): TenantState {
    if c.id in ts.clusters then ts
    else ts.(clusters := ts.clusters[c.id := ClusterState(c, EMPTY_REPORT, false, [], [])], order := ts.order + [c.id])
  }

  /** `order` without the first occurrence of `id`. */
  function Without(order: seq<string>, id: string): seq<string> {
    if order == [] then [] else if order[0] == id then order[1..] else [order[0]] + Without(order[1..], id)
  }

  function Removed(ts: TenantState, id: string): TenantState {
    ts.(clusters := ts.clusters - {id}, order := Without(ts.order, id))
  }

  function Frameworks(fws: seq<FrameworkResult>): (nat, nat) {
    (SumAssessed(fws), SumBreached(fws))
  }

  /** Control totals of a report: the posture's, or the frameworks' when the posture has none. */
  function PostureControls(rep: Report): (nat, nat) {
    if rep.posture.controlsAssessed > 0 then (rep.posture.controlsAssessed, rep.posture.controlsBreached)
    else Frameworks(rep.compliance)
  }

  function ScanOf(clusterId: string, scanId: string, rep: Report, at: int): Scan {
    Scan(scanId, clusterId, Succeeded, Some(at), Some(at), |rep.findings|)
  }

  function SnapshotOf(scanId: string, rep: Report, at: int): Snapshot {
    Snapshot(scanId, at, |rep.findings|, PostureControls(rep).0, PostureControls(rep).1,
             rep.posture.overallPassRate, rep.posture.bySeverity)
  }

  /** A cluster after one more finished scan. */
  function Scanned(cs: ClusterState, clusterId: string, scanId: string, rep: Report, at: int): ClusterState {
    ClusterState(
      cs.meta.(lastScanAt := Some(at), totalFindings := |rep.findings|, overallPassRate := rep.posture.overallPassRate),
      rep, true, [ScanOf(clusterId, scanId, rep, at)] + cs.scans, cs.history + [SnapshotOf(scanId, rep, at)])
  }

  function NewCluster(id: string): ClusterState {
    ClusterState(Cluster(id, id, "", None, 0, 0.0), EMPTY_REPORT, false, [], [])
  }

  function Recorded(ts: TenantState, clusterId: string, scanId: string, rep: Report, at: int): TenantState {
    if clusterId in ts.clusters
    then ts.(clusters := ts.clusters[clusterId := Scanned(ts.clusters[clusterId], clusterId, scanId, rep, at)])
    else ts.(clusters := ts.clusters[clusterId := Scanned(NewCluster(clusterId), clusterId, scanId, rep, at)],
             order := ts.order + [clusterId])
  }

  // ----- reading one tenant -----

  function MetaOf(ts: TenantState): string -> seq<Cluster> {
    (id: string) => if id in ts.clusters then [ts.clusters[id].meta] else []
  }

  function Clusters(ts: TenantState): seq<Cluster> {
    FlatMap(MetaOf(ts), ts.order)
  }

  function ScansOf(ts: TenantState, clusterId: string): string -> seq<Scan> {
    (id: string) => if (clusterId != "" && id != clusterId) || id !in ts.clusters then [] else ts.clusters[id].scans
  }

  function StampLess(a: Option<int>, b: Option<int>): bool {
    match (a, b)
    case (None, Some(_)) => true
    case (Some(x), Some(y)) => x < y
    case _ => false
  }

  /** Newest first. */
  predicate ScanLess(a: Scan, b: Scan) {
    StampLess(b.startedAt, a.startedAt)
  }

  function AllScans(ts: TenantState, clusterId: string): seq<Scan> {
    StableSort(ScanLess, FlatMap(ScansOf(ts, clusterId), ts.order))
  }

  const MAX_INT := 0x7FFF_FFFF_FFFF_FFFF

  /** Go's `int` on a 64-bit platform; sums wrap around. */
  type GoInt = x: int | -MAX_INT - 1 <= x <= MAX_INT

  function Wrapped(x: int): GoInt {
    (x + MAX_INT + 1) % (2 * MAX_INT + 2) - MAX_INT - 1
  }

  /** One page of a list: everything from `offset` when `limit` is not positive. `Err` is a panic. */
  function Page<T>(all: seq<T>, limit: GoInt, offset: GoInt): Result<seq<T>> {
    var from := if offset > |all| then |all| else offset;
    var end := Wrapped(from + limit);
    var to := if limit <= 0 || end > |all| then |all| else end;
    if 0 <= from <= to <= |all| then Ok(all[from..to]) else Err
  }

  function Min(a: int, b: int): int {
    if a <= b then a else b
  }

  /**
   * Taking a page panics exactly for a negative offset and for a sum past the largest integer;
   * otherwise the page holds `limit` elements from `offset` on, as far as there are any.
   */
  lemma PageExact<T>(all: seq<T>, limit: GoInt, offset: GoInt)
    ensures Page(all, limit, offset) == Err <==> offset < 0 || (limit > 0 && Min(offset, |all|) + limit > MAX_INT)
    ensures Page(all, limit, offset).Ok? ==>
      var page, from := Page(all, limit, offset).value, Min(offset, |all|);
      && |page| == (if limit <= 0 then |all| - from else Min(limit, |all| - from))
      && forall i :: 0 <= i < |page| ==> page[i] == all[from + i]
  {
    var from := Min(offset, |all|);
    if offset >= 0 && limit > 0 {
      WrapsOnce(from + limit);
    }
  }

  lemma WrapsOnce(x: int)
    requires 0 <= x <= 2 * MAX_INT + 1
    ensures Wrapped(x) == if x <= MAX_INT then x else x - (2 * MAX_INT + 2)
  {
  }

  function LatestOf(ts: TenantState): string -> seq<Report> {
    (id: string) => if id in ts.clusters && ts.clusters[id].hasScan then [ts.clusters[id].latest] else []
  }

  function ReportOf(ts: TenantState, clusterId: string): Option<Report> {
    if clusterId != "" then
      if clusterId in ts.clusters && ts.clusters[clusterId].hasScan then Some(ts.clusters[clusterId].latest) else None
    else Some(M.Merged(FlatMap(LatestOf(ts), ts.order)))
  }

  function HistoryOf(ts: TenantState, clusterId: string): string -> seq<Snapshot> {
    (id: string) => if (clusterId != "" && id != clusterId) || id !in ts.clusters then [] else ts.clusters[id].history
  }

  /** Oldest first. */
  predicate SnapshotLess(a: Snapshot, b: Snapshot) {
    a.at < b.at
  }

  function Timeline(ts: TenantState, clusterId: string): seq<Snapshot> {
    StableSort(SnapshotLess, FlatMap(HistoryOf(ts, clusterId), ts.order))
  }

  /** Scans come newest first, every one once, tied ones in cluster order. */
  lemma ScansNewestFirst(ts: TenantState, clusterId: string)
    ensures Sorted(ScanLess, AllScans(ts, clusterId))
    ensures multiset(AllScans(ts, clusterId)) == multiset(FlatMap(ScansOf(ts, clusterId), ts.order))
  {
    assert StrictWeakOrder(ScanLess);
    StableSortCorrect(ScanLess, FlatMap(ScansOf(ts, clusterId), ts.order));
  }

  /** Snapshots come oldest first, every one once. */
  lemma TimelineOldestFirst(ts: TenantState, clusterId: string)
    ensures Sorted(SnapshotLess, Timeline(ts, clusterId))
    ensures multiset(Timeline(ts, clusterId)) == multiset(FlatMap(HistoryOf(ts, clusterId), ts.order))
  {
    assert StrictWeakOrder(SnapshotLess);
    StableSortCorrect(SnapshotLess, FlatMap(HistoryOf(ts, clusterId), ts.order));
  }

  // ----- lifecycle rows of one tenant -----

  function SeedRow(digest: string -> string, clusterId: string, f: Finding, now: int): Row {
    Row(Key(digest, clusterId, f), clusterId, f.id, f.resource, Open, "", None, Some(now), Some(now), None)
  }

  /** Adds an open row for every finding whose key is not yet tracked. */
  function Seeded(digest: string -> string, rows: map<string, Row>, clusterId: string, findings: seq<Finding>,
                  now: int): map<string, Row> {
    if findings == [] then rows
    else
      var before := Seeded(digest, rows, clusterId, findings[..|findings| - 1], now);
      var f := findings[|findings| - 1];
      var key := Key(digest, clusterId, f);
      if key in before then before else before[key := SeedRow(digest, clusterId, f, now)]
  }

  function DropCluster(rows: map<string, Row>, clusterId: string): map<string, Row> {
    map k | k in rows && rows[k].clusterId != clusterId :: rows[k]
  }

  function OfCluster(rows: map<string, Row>, clusterId: string): map<string, Row> {
    map k | k in rows && (clusterId == "" || rows[k].clusterId == clusterId) :: rows[k]
  }

  /** The rows of a map, in an unspecified order. */
  ghost function Enumerated(rows: map<string, Row>): seq<Row>
    decreases |rows|
  {
    if rows == map[] then []
    else
      var k :| k in rows.Keys;
      Enumerated(rows - {k}) + [rows[k]]
  }

  ghost function SortedRows(rows: map<string, Row>): seq<Row> {
    StableSort(RowLess, Enumerated(rows))
  }

  ghost predicate Keyed(rows: map<string, Row>) {
    forall k :: k in rows ==> rows[k].key == k
  }

  /** `listed` holds exactly the rows of the map, each once. */
  ghost predicate Lists(listed: seq<Row>, rows: map<string, Row>) {
    DistinctKeys(listed) && forall r :: r in listed <==> r.key in rows && rows[r.key] == r
  }

  lemma ListsOneMore(front: seq<Row>, rows: map<string, Row>, k: string)
    requires Keyed(rows) && k in rows && Lists(front, rows - {k})
    ensures Lists(front + [rows[k]], rows)
  {
    assert forall i :: 0 <= i < |front| ==> front[i] in front;
    assert forall r :: r in front + [rows[k]] <==> r in front || r == rows[k];
  }

  lemma {:induction false} EnumeratedRows(rows: map<string, Row>)
    requires Keyed(rows)
    ensures DistinctKeys(Enumerated(rows))
    ensures forall r :: r in Enumerated(rows) <==> r.key in rows && rows[r.key] == r
    decreases |rows|
  {
    if rows != map[] {
      var k :| k in rows.Keys && Enumerated(rows) == Enumerated(rows - {k}) + [rows[k]];
      hide Enumerated;
      EnumeratedRows(rows - {k});
      ListsOneMore(Enumerated(rows - {k}), rows, k);
    }
  }

  /** Any listing of the same rows sorts to the same list. */
  lemma SortedRowsOf(rows: map<string, Row>, listed: seq<Row>)
    requires Keyed(rows) && DistinctKeys(listed)
    requires forall r :: r in listed <==> r.key in rows && rows[r.key] == r
    ensures StableSort(RowLess, listed) == SortedRows(rows)
  {
    hide Enumerated;
    EnumeratedRows(rows);
    SortedRowsUnique(listed, Enumerated(rows));
  }

  // ----- the whole store -----

  function TenantOf(s: Store, t: string): TenantState {
    if t in s.tenants then s.tenants[t] else EMPTY_TENANT
  }

  function RowsOf(s: Store, t: string): map<string, Row> {
    if t in s.lifecycle then s.lifecycle[t] else map[]
  }

  function RegisterCluster(s: Store, t: string, c: Cluster): Store {
    s.(tenants := s.tenants[t := Registered(TenantOf(s, t), c)])
  }

  function DeleteCluster(s: Store, t: string, id: string): (Store, bool) {
    if t !in s.tenants || id !in s.tenants[t].clusters then (s, false)
    else
      (Store(s.tenants[t := Removed(s.tenants[t], id)],
             if t in s.lifecycle then s.lifecycle[t := DropCluster(s.lifecycle[t], id)] else s.lifecycle), true)
  }

  function RecordScan(s: Store, t: string, clusterId: string, scanId: string, rep: Report, at: int): Store {
    s.(tenants := s.tenants[t := Recorded(TenantOf(s, t), clusterId, scanId, rep, at)])
  }

  function ProvisionTenant(s: Store, t: string, displayName: string): Store {
    var ts := TenantOf(s, t);
    s.(tenants := s.tenants[t := if displayName != "" then ts.(displayName := displayName) else ts])
  }

  function DeleteTenant(s: Store, t: string): Store {
    Store(s.tenants - {t}, s.lifecycle - {t})
  }

  function SeedFindings(digest: string -> string, s: Store, t: string, clusterId: string, findings: seq<Finding>,
                        now: int): Store {
    s.(lifecycle := s.lifecycle[t := Seeded(digest, RowsOf(s, t), clusterId, findings, now)])
  }

  function UpsertLifecycle(s: Store, t: string, r: Row): Store {
    s.(lifecycle := s.lifecycle[t := RowsOf(s, t)[r.key := r]])
  }

  function GetCluster(s: Store, t: string, id: string): Option<Cluster> {
    if t in s.tenants && id in s.tenants[t].clusters then Some(s.tenants[t].clusters[id].meta) else None
  }

  function ListClusters(s: Store, t: string): seq<Cluster> {
    if t in s.tenants then Clusters(s.tenants[t]) else []
  }

  function ListScans(s: Store, t: string, clusterId: string, limit: GoInt, offset: GoInt)
    : Result<(seq<Scan>, nat)>
  {
    if t !in s.tenants then Ok(([], 0))
    else
      var all := AllScans(s.tenants[t], clusterId);
      match Page(all, limit, offset)
      case Ok(page) => Ok((page, |all|))
      case Err => Err
  }

  function GetReport(s: Store, t: string, clusterId: string): Option<Report> {
    if t in s.tenants then ReportOf(s.tenants[t], clusterId) else None
  }

  function History(s: Store, t: string, clusterId: string): seq<Snapshot> {
    if t in s.tenants then Timeline(s.tenants[t], clusterId) else []
  }

  function GetLifecycle(s: Store, t: string, key: string): Option<Row> {
    if key in RowsOf(s, t) then Some(RowsOf(s, t)[key]) else None
  }

  ghost function ListLifecycle(s: Store, t: string, clusterId: string): seq<Row> {
    SortedRows(OfCluster(RowsOf(s, t), clusterId))
  }

  // ----- representation invariant -----

  /** A scan and a snapshot that record the same event. */
  ghost predicate SameScan(id: string, scan: Scan, h: Snapshot) {
    && scan.id == h.scanId && scan.clusterId == id && scan.status == Succeeded
    && scan.startedAt == scan.finishedAt == Some(h.at) && scan.totalFindings == h.totalFindings
  }

  /** Scans are the history reversed, and metadata and latest report describe the newest scan. */
  ghost predicate ValidCluster(id: string, cs: ClusterState) {
    && cs.meta.id == id
    && (cs.hasScan <==> cs.scans != [])
    && |cs.scans| == |cs.history|
    && (forall i :: 0 <= i < |cs.scans| ==> SameScan(id, cs.scans[i], cs.history[|cs.history| - 1 - i]))
    && (cs.hasScan ==>
          && cs.history[|cs.history| - 1]
             == SnapshotOf(cs.scans[0].id, cs.latest, cs.history[|cs.history| - 1].at)
          && cs.meta.lastScanAt == cs.scans[0].startedAt
          && cs.meta.totalFindings == |cs.latest.findings|
          && cs.meta.overallPassRate == cs.latest.posture.overallPassRate)
  }

  ghost predicate ValidTenant(ts: TenantState) {
    && NoDuplicates(ts.order)
    && (forall id :: id in ts.order <==> id in ts.clusters)
    && (forall id :: id in ts.clusters ==> ValidCluster(id, ts.clusters[id]))
  }

  ghost predicate ValidStore(s: Store) {
    && (forall t :: t in s.tenants ==> ValidTenant(s.tenants[t]))
    && (forall t :: t in s.lifecycle ==> Keyed(s.lifecycle[t]))
  }

  lemma RegisteredValid(ts: TenantState, c: Cluster)
    requires ValidTenant(ts)
    ensures ValidTenant(Registered(ts, c))
  {
  }

  lemma {:induction false} WithoutMembers(order: seq<string>, id: string)
    requires NoDuplicates(order)
    ensures NoDuplicates(Without(order, id))
    ensures forall x :: x in Without(order, id) <==> x in order && x != id
  {
    if order != [] {
      assert order == [order[0]] + order[1..];
      assert order[0] !in order[1..];
      WithoutMembers(order[1..], id);
    }
  }

  lemma RemovedValid(ts: TenantState, id: string)
    requires ValidTenant(ts)
    ensures ValidTenant(Removed(ts, id)) && id !in Removed(ts, id).order
  {
    WithoutMembers(ts.order, id);
  }

  lemma ScannedValid(cs: ClusterState, id: string, scanId: string, rep: Report, at: int)
    requires ValidCluster(id, cs)
    ensures ValidCluster(id, Scanned(cs, id, scanId, rep, at))
  {
  }

  lemma RecordedValid(ts: TenantState, id: string, scanId: string, rep: Report, at: int)
    requires ValidTenant(ts)
    ensures ValidTenant(Recorded(ts, id, scanId, rep, at))
  {
    hide Scanned, ValidCluster;
    var ts' := Recorded(ts, id, scanId, rep, at);
    if id in ts.clusters {
      ScannedValid(ts.clusters[id], id, scanId, rep, at);
    } else {
      NewClusterValid(id);
      ScannedValid(NewCluster(id), id, scanId, rep, at);
      forall x ensures x in ts'.order <==> x in ts'.clusters {}
    }
    forall x | x in ts'.clusters ensures ValidCluster(x, ts'.clusters[x]) {
      if x != id { assert ts'.clusters[x] == ts.clusters[x]; }
    }
  }

  lemma NewClusterValid(id: string)
    ensures ValidCluster(id, NewCluster(id))
  {
  }

  /** Seeding never touches a tracked row, and adds exactly the missing keys as open rows. */
  lemma {:induction false} SeededRows(digest: string -> string, rows: map<string, Row>, clusterId: string,
                                      findings: seq<Finding>, now: int)
    ensures var rows' := Seeded(digest, rows, clusterId, findings, now);
      && (forall k :: k in rows ==> k in rows' && rows'[k] == rows[k])
      && (forall k :: k in rows' && k !in rows ==>
            exists f :: f in findings && k == Key(digest, clusterId, f)
              && rows'[k] == SeedRow(digest, clusterId, f, now))
      && (forall f :: f in findings ==> Key(digest, clusterId, f) in rows')
  {
    hide Key;
    if findings != [] {
      var front := findings[..|findings| - 1];
      SeededRows(digest, rows, clusterId, front, now);
      assert findings == front + [findings[|findings| - 1]];
    }
  }

  lemma SeededKeyed(digest: string -> string, rows: map<string, Row>, clusterId: string, findings: seq<Finding>,
                    now: int)
    requires Keyed(rows)
    ensures Keyed(Seeded(digest, rows, clusterId, findings, now))
  {
  }

  // ----- the class -----

  class MemStore {
    var tenants: map<string, TenantState>
    var lifecycle: map<string, map<string, Row>>

    ghost function State(): Store
      reads this
    {
      Store(tenants, lifecycle)
    }

    ghost predicate Valid()
      reads this
    {
      ValidStore(State())
    }

    constructor ()
      ensures State() == EMPTY_STORE && Valid()
    {
      tenants, lifecycle := map[], map[];
    }

    /** The tenant's partition, created on first use. */
    method EnsureTenant(tenant: string) returns (ts: TenantState)
      modifies this`tenants
      ensures ts == TenantOf(old(State()), tenant)
      ensures tenants == old(tenants)[tenant := ts]
    {
      if tenant !in tenants {
        tenants := tenants[tenant := EMPTY_TENANT];
      }
      ts := tenants[tenant];
    }

    method Register(tenant: string, c: Cluster)
      requires Valid()
      modifies this
      ensures State() == RegisterCluster(old(State()), tenant, c)
      ensures Valid()
    {
      hide ValidCluster;
      var ts := EnsureTenant(tenant);
      assert ValidTenant(ts);
      RegisteredValid(ts, c);
      if c.id in ts.clusters {
        return;
      }
      ts := ts.(clusters := ts.clusters[c.id := ClusterState(c, EMPTY_REPORT, false, [], [])]);
      ts := ts.(order := ts.order + [c.id]);
      tenants := tenants[tenant := ts];
    }

    method Delete(tenant: string, clusterId: string) returns (ok: bool)
      requires Valid()
      modifies this
      ensures (State(), ok) == DeleteCluster(old(State()), tenant, clusterId)
      ensures Valid()
      ensures ok ==> forall k :: k in RowsOf(State(), tenant) ==> RowsOf(State(), tenant)[k].clusterId != clusterId
    {
      hide ValidCluster, Without;
      if tenant !in tenants || clusterId !in tenants[tenant].clusters {
        return false;
      }
      var ts := tenants[tenant];
      RemovedValid(ts, clusterId);
      var order := SpliceOut(ts.order, clusterId);
      ts := ts.(clusters := ts.clusters - {clusterId}, order := order);
      tenants := tenants[tenant := ts];
      if tenant in lifecycle {
        var rows := DropRows(lifecycle[tenant], clusterId);
        lifecycle := lifecycle[tenant := rows];
      }
      return true;
    }

    method Record(tenant: string, clusterId: string, scanId: string, rep: Report, at: int) returns (scan: Scan)
      requires Valid()
      modifies this
      ensures State() == RecordScan(old(State()), tenant, clusterId, scanId, rep, at)
      ensures scan == ScanOf(clusterId, scanId, rep, at)
      ensures Valid()
    {
      hide ValidCluster, Recorded, ScanOf;
      var ts := EnsureTenant(tenant);
      assert ValidTenant(ts);
      RecordedValid(ts, clusterId, scanId, rep, at);
      ts, scan := RecordIn(ts, clusterId, scanId, rep, at);
      tenants := tenants[tenant := ts];
      assert tenants == old(tenants)[tenant := ts];
    }

    method Provision(tenant: string, displayName: string)
      requires Valid()
      modifies this
      ensures State() == ProvisionTenant(old(State()), tenant, displayName)
      ensures Valid()
    {
      hide ValidCluster;
      var ts := EnsureTenant(tenant);
      assert ValidTenant(ts);
      if displayName != "" {
        tenants := tenants[tenant := ts.(displayName := displayName)];
      }
    }

    method Erase(tenant: string)
      requires Valid()
      modifies this
      ensures State() == DeleteTenant(old(State()), tenant)
      ensures Valid()
    {
      tenants := tenants - {tenant};
      lifecycle := lifecycle - {tenant};
    }

    method Seed(digest: string -> string, tenant: string, clusterId: string, findings: seq<Finding>, now: int)
      requires Valid()
      modifies this
      ensures State() == SeedFindings(digest, old(State()), tenant, clusterId, findings, now)
      ensures Valid()
    {
      hide Key;
      var byKey := if tenant in lifecycle then lifecycle[tenant] else map[];
      ghost var before := byKey;
      for i := 0 to |findings|
        invariant byKey == Seeded(digest, before, clusterId, findings[..i], now)
        invariant unchanged(this)
      {
        assert findings[..i + 1][..i] == findings[..i];
        var key := Key(digest, clusterId, findings[i]);
        if key in byKey {
          continue;
        }
        byKey := byKey[key := SeedRow(digest, clusterId, findings[i], now)];
      }
      assert findings[..|findings|] == findings;
      SeededKeyed(digest, before, clusterId, findings, now);
      lifecycle := lifecycle[tenant := byKey];
    }

    method Upsert(tenant: string, r: Row)
      requires Valid()
      modifies this
      ensures State() == UpsertLifecycle(old(State()), tenant, r)
      ensures Valid()
    {
      var byKey := if tenant in lifecycle then lifecycle[tenant] else map[];
      lifecycle := lifecycle[tenant := byKey[r.key := r]];
    }

    method Get(tenant: string, key: string) returns (r: Option<Row>)
      ensures r == GetLifecycle(State(), tenant, key)
    {
      if tenant in lifecycle && key in lifecycle[tenant] {
        return Some(lifecycle[tenant][key]);
      }
      return None;
    }

    /** Rows of a tenant, optionally of one cluster, in an order fixed by finding id and key. */
    method List(tenant: string, clusterId: string) returns (out: seq<Row>)
      requires Valid()
      ensures out == ListLifecycle(State(), tenant, clusterId)
    {
      hide StableSort, RowLess;
      var rows := if tenant in lifecycle then lifecycle[tenant] else map[];
      out := CollectRows(rows, clusterId);
      SortedRowsOf(OfCluster(rows, clusterId), out);
      out := StableSort(RowLess, out);
    }

    method Clusters(tenant: string) returns (out: seq<Cluster>)
      requires Valid()
      ensures out == ListClusters(State(), tenant)
    {
      hide FlatMap, ValidCluster;
      if tenant !in tenants {
        return [];
      }
      var ts := tenants[tenant];
      out := [];
      FlatMapEnds(MetaOf(ts), ts.order);
      for i := 0 to |ts.order|
        invariant out == FlatMap(MetaOf(ts), ts.order[..i])
      {
        FlatMapStep(MetaOf(ts), ts.order, i);
        assert ts.order[i] in ts.clusters;
        out := out + [ts.clusters[ts.order[i]].meta];
      }
    }

    /** `Err` stands for the panic of a slice expression out of range. */
    method Scans(tenant: string, clusterId: string, limit: GoInt, offset: GoInt)
      returns (r: Result<(seq<Scan>, nat)>)
      requires Valid()
      ensures r == ListScans(State(), tenant, clusterId, limit, offset)
    {
      hide FlatMap, StableSort, ValidCluster;
      if tenant !in tenants {
        return Ok(([], 0));
      }
      var ts := tenants[tenant];
      var all: seq<Scan> := [];
      FlatMapEnds(ScansOf(ts, clusterId), ts.order);
      for i := 0 to |ts.order|
        invariant all == FlatMap(ScansOf(ts, clusterId), ts.order[..i])
      {
        FlatMapStep(ScansOf(ts, clusterId), ts.order, i);
        var id := ts.order[i];
        if clusterId != "" && id != clusterId {
          continue;
        }
        assert id in ts.clusters;
        all := all + ts.clusters[id].scans;
      }
      all := StableSort(ScanLess, all);
      var total := |all|;
      var from := if offset > total then total else offset;
      var end := Wrapped(from + limit);
      if limit <= 0 || end > total {
        end := total;
      }
      if from < 0 || end < from {
        return Err;
      }
      return Ok((all[from..end], total));
    }

    method LatestReport(tenant: string, clusterId: string) returns (rep: Option<Report>)
      requires Valid()
      ensures rep == GetReport(State(), tenant, clusterId)
    {
      hide FlatMap, M.Merged, ValidCluster;
      if tenant !in tenants {
        return None;
      }
      var ts := tenants[tenant];
      if clusterId != "" {
        if clusterId !in ts.clusters || !ts.clusters[clusterId].hasScan {
          return None;
        }
        return Some(ts.clusters[clusterId].latest);
      }
      var reps: seq<Report> := [];
      FlatMapEnds(LatestOf(ts), ts.order);
      for i := 0 to |ts.order|
        invariant reps == FlatMap(LatestOf(ts), ts.order[..i])
      {
        FlatMapStep(LatestOf(ts), ts.order, i);
        assert ts.order[i] in ts.clusters;
        var cs := ts.clusters[ts.order[i]];
        if cs.hasScan {
          reps := reps + [cs.latest];
        }
      }
      var merged := M.MergeReports(reps);
      return Some(merged);
    }

    method GetHistory(tenant: string, clusterId: string) returns (out: seq<Snapshot>)
      requires Valid()
      ensures out == History(State(), tenant, clusterId)
    {
      hide FlatMap, StableSort, ValidCluster;
      if tenant !in tenants {
        return [];
      }
      var ts := tenants[tenant];
      out := [];
      FlatMapEnds(HistoryOf(ts, clusterId), ts.order);
      for i := 0 to |ts.order|
        invariant out == FlatMap(HistoryOf(ts, clusterId), ts.order[..i])
      {
        FlatMapStep(HistoryOf(ts, clusterId), ts.order, i);
        var id := ts.order[i];
        if clusterId != "" && id != clusterId {
          continue;
        }
        assert id in ts.clusters;
        out := out + ts.clusters[id].history;
      }
      out := StableSort(SnapshotLess, out);
    }
  }

  // ----- inner parts of the class's methods, on values -----

  method RecordIn(tenant: TenantState, clusterId: string, scanId: string, rep: Report, at: int)
    returns (ts: TenantState, scan: Scan)
    ensures ts == Recorded(tenant, clusterId, scanId, rep, at) && scan == ScanOf(clusterId, scanId, rep, at)
  {
    hide PostureControls;
    ts := tenant;
    if clusterId !in ts.clusters {
      ts := ts.(clusters := ts.clusters[clusterId := NewCluster(clusterId)], order := ts.order + [clusterId]);
    }
    var cs := ts.clusters[clusterId];
    cs := cs.(latest := rep, hasScan := true);
    var assessed, breached := CountControls(rep);
    scan := Scan(scanId, clusterId, Succeeded, Some(at), Some(at), |rep.findings|);
    cs := cs.(scans := [scan] + cs.scans);
    cs := cs.(history := cs.history + [Snapshot(scanId, at, |rep.findings|, assessed, breached,
                                                rep.posture.overallPassRate, rep.posture.bySeverity)]);
    cs := cs.(meta := cs.meta.(lastScanAt := Some(at), totalFindings := |rep.findings|,
                               overallPassRate := rep.posture.overallPassRate));
    ts := ts.(clusters := ts.clusters[clusterId := cs]);
    assert ts.clusters == tenant.clusters[clusterId := cs];
  }

  /** Elements other than `id` at the front stay in place. */
  lemma {:induction false} WithoutPrefix(order: seq<string>, i: nat, id: string)
    requires i <= |order| && forall k :: 0 <= k < i ==> order[k] != id
    ensures Without(order, id) == order[..i] + Without(order[i..], id)
  {
    if i == 0 {
      assert order[0..] == order;
    } else {
      var rest := order[1..];
      WithoutPrefix(rest, i - 1, id);
      hide Without;
      assert rest[i - 1..] == order[i..] && order[..i] == [order[0]] + rest[..i - 1];
    }
  }

  lemma WithoutFirst(order: seq<string>, i: nat, id: string)
    requires i < |order| && order[i] == id
    ensures Without(order[i..], id) == order[i + 1..]
  {
  }

  method SpliceOut(order: seq<string>, id: string) returns (r: seq<string>)
    ensures r == Without(order, id)
  {
    hide Without;
    for i := 0 to |order|
      invariant forall k :: 0 <= k < i ==> order[k] != id
    {
      if order[i] == id {
        WithoutPrefix(order, i, id);
        WithoutFirst(order, i, id);
        return order[..i] + order[i + 1..];
      }
    }
    WithoutPrefix(order, |order|, id);
    NothingWithout(id);
    assert order[|order|..] == [] && order[..|order|] == order;
    return order;
  }

  lemma NothingWithout(id: string)
    ensures Without([], id) == []
  {
  }

  method DropRows(rows: map<string, Row>, clusterId: string) returns (kept: map<string, Row>)
    ensures kept == DropCluster(rows, clusterId)
  {
    kept := rows;
    var todo := rows.Keys;
    while todo != {}
      invariant todo <= rows.Keys
      invariant kept == map k | k in rows && (k in todo || rows[k].clusterId != clusterId) :: rows[k]
      decreases todo
    {
      var k :| k in todo;
      todo := todo - {k};
      if rows[k].clusterId == clusterId {
        kept := kept - {k};
      }
    }
  }

  method CollectRows(rows: map<string, Row>, clusterId: string) returns (out: seq<Row>)
    requires Keyed(rows)
    ensures DistinctKeys(out)
    ensures forall r :: r in out <==> r.key in OfCluster(rows, clusterId) && OfCluster(rows, clusterId)[r.key] == r
  {
    out := [];
    var todo := rows.Keys;
    while todo != {}
      invariant todo <= rows.Keys && DistinctKeys(out)
      invariant forall r :: r in out <==> r.key in rows && r.key !in todo && rows[r.key] == r
                                          && (clusterId == "" || r.clusterId == clusterId)
      decreases todo
    {
      var k :| k in todo;
      todo := todo - {k};
      assert forall i :: 0 <= i < |out| ==> out[i] in out;
      if clusterId != "" && rows[k].clusterId != clusterId {
        continue;
      }
      out := out + [rows[k]];
    }
  }

  method CountControls(rep: Report) returns (assessed: nat, breached: nat)
    ensures (assessed, breached) == PostureControls(rep)
  {
    if rep.posture.controlsAssessed > 0 {
      return rep.posture.controlsAssessed, rep.posture.controlsBreached;
    }
    assessed, breached := 0, 0;
    for i := 0 to |rep.compliance|
      invariant (assessed, breached) == Frameworks(rep.compliance[..i])
    {
      assert rep.compliance[..i + 1][..i] == rep.compliance[..i];
      assessed := assessed + rep.compliance[i].assessed;
      breached := breached + rep.compliance[i].breached;
    }
    assert rep.compliance[..|rep.compliance|] == rep.compliance;
  }

  // ----- answers, said directly -----

  /** The scans of a valid tenant: exactly those of the clusters asked for, latest start first. */
  lemma ScansExact(ts: TenantState, clusterId: string, scan: Scan)
    requires ValidTenant(ts)
    ensures scan in AllScans(ts, clusterId)
      <==> exists id :: id in ts.clusters && (clusterId == "" || id == clusterId) && scan in ts.clusters[id].scans
    ensures forall i, j :: 0 <= i < j < |AllScans(ts, clusterId)| ==>
      var a, b := AllScans(ts, clusterId)[i], AllScans(ts, clusterId)[j];
      b.startedAt.Some? ==> a.startedAt.Some? && a.startedAt.value >= b.startedAt.value
  {
    hide FlatMap, StableSort, ValidCluster;
    ScansNewestFirst(ts, clusterId);
    var all := FlatMap(ScansOf(ts, clusterId), ts.order);
    SameElements(AllScans(ts, clusterId), all);
    FlatMapMembers(ScansOf(ts, clusterId), ts.order, scan);
    forall i, j | 0 <= i < j < |AllScans(ts, clusterId)|
      ensures !ScanLess(AllScans(ts, clusterId)[j], AllScans(ts, clusterId)[i]) {}
  }

  /** The history of a valid tenant: exactly the snapshots of the clusters asked for, oldest first. */
  lemma TimelineExact(ts: TenantState, clusterId: string, h: Snapshot)
    requires ValidTenant(ts)
    ensures h in Timeline(ts, clusterId)
      <==> exists id :: id in ts.clusters && (clusterId == "" || id == clusterId) && h in ts.clusters[id].history
    ensures forall i, j :: 0 <= i < j < |Timeline(ts, clusterId)| ==>
      Timeline(ts, clusterId)[i].at <= Timeline(ts, clusterId)[j].at
  {
    hide FlatMap, StableSort, ValidCluster;
    TimelineOldestFirst(ts, clusterId);
    var all := FlatMap(HistoryOf(ts, clusterId), ts.order);
    SameElements(Timeline(ts, clusterId), all);
    FlatMapMembers(HistoryOf(ts, clusterId), ts.order, h);
    forall i, j | 0 <= i < j < |Timeline(ts, clusterId)|
      ensures !SnapshotLess(Timeline(ts, clusterId)[j], Timeline(ts, clusterId)[i]) {}
  }

  /** The clusters of a valid tenant are listed in the order in which they were registered or first scanned. */
  lemma OrderEvolves(s: Store, t: string, c: Cluster, id: string, scanId: string, rep: Report, at: int)
    ensures TenantOf(RegisterCluster(s, t, c), t).order ==
      TenantOf(s, t).order + (if c.id in TenantOf(s, t).clusters then [] else [c.id])
    ensures TenantOf(RecordScan(s, t, id, scanId, rep, at), t).order ==
      TenantOf(s, t).order + (if id in TenantOf(s, t).clusters then [] else [id])
  {
    hide Scanned;
  }

  /** The fleet report holds the findings of every scanned cluster's latest report and no others. */
  lemma FleetFindings(s: Store, t: string, f: Finding)
    requires ValidStore(s) && t in s.tenants && "" !in s.tenants[t].clusters
    ensures GetReport(s, t, "").Some?
    ensures f in GetReport(s, t, "").value.findings
      <==> exists id :: id in s.tenants[t].clusters && GetReport(s, t, id).Some?
                        && f in GetReport(s, t, id).value.findings
  {
    hide FlatMap, ValidCluster, M.Posture, M.MergedFrameworks, M.TopRisks;
    var ts := s.tenants[t];
    assert ValidTenant(ts);
    var reps := FlatMap(LatestOf(ts), ts.order);
    FlatMapMembers(M.FindingsIn, reps, f);
    if r :| r in reps && f in M.FindingsIn(r) {
      FlatMapMembers(LatestOf(ts), ts.order, r);
      var id :| id in ts.order && r in LatestOf(ts)(id);
      assert id in ts.clusters && GetReport(s, t, id) == Some(r);
    }
    if id :| id in ts.clusters && GetReport(s, t, id).Some? && f in GetReport(s, t, id).value.findings {
      var r := GetReport(s, t, id).value;
      FlatMapMembers(LatestOf(ts), ts.order, r);
      assert r in LatestOf(ts)(id) && f in M.FindingsIn(r);
    }
  }

  /** What was recorded last is what is answered: report, metadata and newest scan. */
  lemma RecordedIsAnswered(s: Store, t: string, id: string, scanId: string, rep: Report, at: int)
    requires id != ""
    ensures var s' := RecordScan(s, t, id, scanId, rep, at);
      && GetReport(s', t, id) == Some(rep) && GetCluster(s', t, id).Some?
      && GetCluster(s', t, id).value.lastScanAt == Some(at)
      && GetCluster(s', t, id).value.totalFindings == |rep.findings|
      && s'.tenants[t].clusters[id].scans != [] && s'.tenants[t].clusters[id].scans[0].id == scanId
  {
    hide PostureControls;
  }

  /** A stored row is what is answered under its key; no other row changes. */
  lemma UpsertedIsAnswered(s: Store, t: string, r: Row, u: string, k: string)
    ensures GetLifecycle(UpsertLifecycle(s, t, r), u, k)
      == if u == t && k == r.key then Some(r) else GetLifecycle(s, u, k)
  {
  }

  /** Rows are listed by finding id and then by key. */
  lemma ListedInOrder(rows: map<string, Row>)
    requires Keyed(rows)
    ensures forall i, j :: 0 <= i < j < |SortedRows(rows)| ==>
      var a, b := SortedRows(rows)[i], SortedRows(rows)[j];
      StringLess(a.findingId, b.findingId) || (a.findingId == b.findingId && StringLess(a.key, b.key))
  {
    hide Enumerated, StableSort, StringLess;
    EnumeratedRows(rows);
    SortedRowsUnique(Enumerated(rows), Enumerated(rows));
    forall i, j | 0 <= i < j < |SortedRows(rows)| ensures RowLess(SortedRows(rows)[i], SortedRows(rows)[j]) {}
  }

  /** Rows are listed exactly for the tenant, and for the cluster asked for. */
  lemma ListedExactly(s: Store, t: string, clusterId: string, r: Row)
    requires ValidStore(s)
    ensures r in ListLifecycle(s, t, clusterId)
      <==> GetLifecycle(s, t, r.key) == Some(r) && (clusterId == "" || r.clusterId == clusterId)
  {
    hide Enumerated, StableSort, RowLess, ValidTenant;
    var rows := OfCluster(RowsOf(s, t), clusterId);
    assert Keyed(RowsOf(s, t));
    EnumeratedRows(rows);
    SameElements(SortedRows(rows), Enumerated(rows));
  }

  /** The snapshot of a scan: control totals of the posture, or of the frameworks when it has none. */
  lemma SnapshotMeaning(scanId: string, rep: Report, at: int)
    ensures var h := SnapshotOf(scanId, rep, at);
      && h.scanId == scanId && h.at == at && h.totalFindings == |rep.findings|
      && h.bySeverity == rep.posture.bySeverity && h.overallPassRate == rep.posture.overallPassRate
      && h.controlsAssessed == (if rep.posture.controlsAssessed > 0 then rep.posture.controlsAssessed
                                else SumAssessed(rep.compliance))
      && h.controlsBreached == (if rep.posture.controlsAssessed > 0 then rep.posture.controlsBreached
                                else SumBreached(rep.compliance))
  {
  }

  /** A new cluster is answered as registered, a known one as before; a scan names a new cluster by its id. */
  lemma RegisteredIsAnswered(s: Store, t: string, c: Cluster, scanId: string, rep: Report, at: int)
    ensures GetCluster(RegisterCluster(s, t, c), t, c.id) ==
      if GetCluster(s, t, c.id).Some? then GetCluster(s, t, c.id) else Some(c)
    ensures var named := GetCluster(RecordScan(s, t, c.id, scanId, rep, at), t, c.id);
      named.Some? && named.value.name ==
        if GetCluster(s, t, c.id).Some? then GetCluster(s, t, c.id).value.name else c.id
  {
    hide PostureControls;
  }

  /** A seeded row is open, unassigned and first seen at the seed's time. */
  lemma SeedRowMeaning(digest: string -> string, clusterId: string, f: Finding, now: int)
    ensures var r := SeedRow(digest, clusterId, f, now);
      && r.key == Key(digest, clusterId, f) && r.clusterId == clusterId && r.findingId == f.id
      && r.resource == f.resource && r.state == Open && r.assignee == "" && r.waiver == None
      && r.firstSeen == Some(now) && r.lastUpdated == Some(now) && r.resolvedAt == None
  {
  }

  /** A cluster has a report exactly when it has been scanned. */
  lemma ReportedIffScanned(s: Store, t: string, id: string)
    requires ValidStore(s) && id != ""
    ensures GetReport(s, t, id).Some?
      <==> t in s.tenants && id in s.tenants[t].clusters && s.tenants[t].clusters[id].scans != []
  {
    if t in s.tenants {
      assert ValidTenant(s.tenants[t]);
    }
  }
}
