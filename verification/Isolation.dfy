/**
 * Runs of store calls: what every run keeps, and tenant non-interference. A call names the
 * tenant it is made for; an answer is what that caller gets back.
 */
module Isolation {
  import opened Common
  import opened Ordering
  import opened Api
  import opened Rows
  import opened Store

  datatype Call =
    | CallRegister(c: Cluster)
    | CallDeleteCluster(id: string)
    | CallListClusters
    | CallGetCluster(id: string)
    | CallListScans(clusterId: string, limit: GoInt, offset: GoInt)
    | CallRecordScan(clusterId: string, scanId: string, rep: Report, at: int)
    | CallReport(clusterId: string)
    | CallHistory(clusterId: string)
    | CallProvision(displayName: string)
    | CallDeleteTenant
    | CallSeed(clusterId: string, findings: seq<Finding>, now: int)
    | CallGetLifecycle(key: string)
    | CallListLifecycle(clusterId: string)
    | CallUpsert(row: Row)

  datatype Answer =
    | Done
    | Deleted(ok: bool)
    | ClustersAre(clusters: seq<Cluster>)
    | ClusterIs(cluster: Option<Cluster>)
    | ScansAre(page: Result<(seq<Scan>, nat)>)
    | ScanIs(scan: Scan)
    | ReportIs(rep: Option<Report>)
    | HistoryIs(snapshots: seq<Snapshot>)
    | RowIs(row: Option<Row>)
    | RowsAre(rows: seq<Row>)

  /** The store after a call made for tenant `t`. */
  function After(digest: string -> string, s: Store, t: string, call: Call): Store {
    match call
    case CallRegister(c) => RegisterCluster(s, t, c)
    case CallDeleteCluster(id) => DeleteCluster(s, t, id).0
    case CallRecordScan(clusterId, scanId, rep, at) => RecordScan(s, t, clusterId, scanId, rep, at)
    case CallProvision(displayName) => ProvisionTenant(s, t, displayName)
    case CallDeleteTenant => DeleteTenant(s, t)
    case CallSeed(clusterId, findings, now) => SeedFindings(digest, s, t, clusterId, findings, now)
    case CallUpsert(row) => UpsertLifecycle(s, t, row)
    case _ => s
  }

  ghost function AnswerTo(s: Store, t: string, call: Call): Answer {
    match call
    case CallDeleteCluster(id) => Deleted(DeleteCluster(s, t, id).1)
    case CallListClusters => ClustersAre(ListClusters(s, t))
    case CallGetCluster(id) => ClusterIs(GetCluster(s, t, id))
    case CallListScans(clusterId, limit, offset) =>
      ScansAre(ListScans(s, t, clusterId, limit, offset))
    case CallRecordScan(clusterId, scanId, rep, at) => ScanIs(ScanOf(clusterId, scanId, rep, at))
    case CallReport(clusterId) => ReportIs(GetReport(s, t, clusterId))
    case CallHistory(clusterId) => HistoryIs(History(s, t, clusterId))
    case CallGetLifecycle(key) => RowIs(GetLifecycle(s, t, key))
    case CallListLifecycle(clusterId) => RowsAre(ListLifecycle(s, t, clusterId))
    case _ => Done
  }

  datatype Request = Request(tenant: string, call: Call)

  function Final(digest: string -> string, s: Store, trace: seq<Request>): Store
    decreases |trace|
  {
    if trace == [] then s
    else Final(digest, After(digest, s, trace[0].tenant, trace[0].call), trace[1..])
  }

  /** The answers tenant `t` gets over a run, in order. */
  ghost function AnswersFor(digest: string -> string, s: Store, trace: seq<Request>, t: string): seq<Answer>
    decreases |trace|
  {
    if trace == [] then []
    else
      (if trace[0].tenant == t then [AnswerTo(s, t, trace[0].call)] else [])
      + AnswersFor(digest, After(digest, s, trace[0].tenant, trace[0].call), trace[1..], t)
  }

  // ----- every run keeps the representation invariant -----

  lemma CallKeepsValid(digest: string -> string, s: Store, t: string, call: Call)
    requires ValidStore(s)
    ensures ValidStore(After(digest, s, t, call))
  {
    hide ValidCluster, Seeded, Without, Recorded, Registered;
    assert ValidTenant(TenantOf(s, t)) && Keyed(RowsOf(s, t));
    match call
    case CallRegister(c) => RegisteredValid(TenantOf(s, t), c);
    case CallDeleteCluster(id) => RemovedValid(TenantOf(s, t), id);
    case CallRecordScan(clusterId, scanId, rep, at) => RecordedValid(TenantOf(s, t), clusterId, scanId, rep, at);
    case CallSeed(clusterId, findings, now) => SeededKeyed(digest, RowsOf(s, t), clusterId, findings, now);
    case _ =>
  }

  lemma {:induction false} RunKeepsValid(digest: string -> string, s: Store, trace: seq<Request>)
    requires ValidStore(s)
    ensures ValidStore(Final(digest, s, trace))
    decreases |trace|
  {
    hide ValidStore;
    if trace != [] {
      CallKeepsValid(digest, s, trace[0].tenant, trace[0].call);
      RunKeepsValid(digest, After(digest, s, trace[0].tenant, trace[0].call), trace[1..]);
    }
  }

  /** Every store reachable from the empty one, by any calls in any order, is well formed. */
  lemma ReachableValid(digest: string -> string, trace: seq<Request>)
    ensures ValidStore(Final(digest, EMPTY_STORE, trace))
  {
    RunKeepsValid(digest, EMPTY_STORE, trace);
  }

  // ----- tenant non-interference -----

  /** Everything the store holds for one tenant. */
  datatype View = View(tenant: Option<TenantState>, rows: Option<map<string, Row>>)

  function ViewOf(s: Store, t: string): View {
    View(if t in s.tenants then Some(s.tenants[t]) else None,
         if t in s.lifecycle then Some(s.lifecycle[t]) else None)
  }

  /** A call for one tenant leaves every other tenant's view alone. */
  lemma CallFrames(digest: string -> string, s: Store, t: string, call: Call, u: string)
    requires u != t
    ensures ViewOf(After(digest, s, t, call), u) == ViewOf(s, u)
  {
    hide Seeded, Recorded, Registered, Removed, DropCluster;
  }

  /** What a tenant is answered, and its view afterwards, depend on its own view only. */
  lemma CallIsLocal(digest: string -> string, s1: Store, s2: Store, t: string, call: Call)
    requires ViewOf(s1, t) == ViewOf(s2, t)
    ensures AnswerTo(s1, t, call) == AnswerTo(s2, t, call)
    ensures ViewOf(After(digest, s1, t, call), t) == ViewOf(After(digest, s2, t, call), t)
  {
    hide Seeded, Recorded, Registered, Removed, DropCluster, SortedRows, Clusters, AllScans, ReportOf, Timeline,
      OfCluster, Page;
    assert (t in s1.tenants <==> t in s2.tenants) && (t in s1.lifecycle <==> t in s2.lifecycle);
    assert TenantOf(s1, t) == TenantOf(s2, t) && RowsOf(s1, t) == RowsOf(s2, t);
  }

  function Only(trace: seq<Request>, t: string): seq<Request> {
    if trace == [] then [] else (if trace[0].tenant == t then [trace[0]] else []) + Only(trace[1..], t)
  }

  /** From equal views, deleting every call of other tenants changes no answer to `t`. */
  lemma {:induction false} NonInterferenceFrom(digest: string -> string, s1: Store, s2: Store, trace: seq<Request>,
                                               t: string)
    requires ViewOf(s1, t) == ViewOf(s2, t)
    ensures AnswersFor(digest, s1, trace, t) == AnswersFor(digest, s2, Only(trace, t), t)
    ensures ViewOf(Final(digest, s1, trace), t) == ViewOf(Final(digest, s2, Only(trace, t)), t)
    decreases |trace|
  {
    hide ViewOf, After, AnswerTo;
    if trace != [] {
      var r, s1' := trace[0], After(digest, s1, trace[0].tenant, trace[0].call);
      if r.tenant == t {
        CallIsLocal(digest, s1, s2, t, r.call);
        NonInterferenceFrom(digest, s1', After(digest, s2, t, r.call), trace[1..], t);
        assert Only(trace, t)[1..] == Only(trace[1..], t);
      } else {
        CallFrames(digest, s1, r.tenant, r.call, t);
        NonInterferenceFrom(digest, s1', s2, trace[1..], t);
        assert Only(trace, t) == Only(trace[1..], t);
      }
    }
  }

  /** Tenant non-interference, for every run and every tenant. */
  lemma NonInterference(digest: string -> string, trace: seq<Request>, t: string)
    ensures AnswersFor(digest, EMPTY_STORE, trace, t) == AnswersFor(digest, EMPTY_STORE, Only(trace, t), t)
  {
    NonInterferenceFrom(digest, EMPTY_STORE, EMPTY_STORE, trace, t);
  }

  /** After erasure a tenant sees what it would see in a fresh store, for the rest of every run. */
  lemma ErasureIsFresh(digest: string -> string, s: Store, trace: seq<Request>, t: string)
    ensures var erased := After(digest, s, t, CallDeleteTenant);
      && ViewOf(erased, t) == ViewOf(EMPTY_STORE, t)
      && AnswersFor(digest, erased, trace, t) == AnswersFor(digest, EMPTY_STORE, Only(trace, t), t)
  {
    NonInterferenceFrom(digest, After(digest, s, t, CallDeleteTenant), EMPTY_STORE, trace, t);
  }

  // ----- rows of clusters that are gone -----

  /** Every row belongs to a registered cluster. */
  ghost predicate NoOrphans(s: Store, t: string) {
    forall k :: k in RowsOf(s, t) ==> RowsOf(s, t)[k].clusterId in TenantOf(s, t).clusters
  }

  /** Rows are written only for clusters that are registered at that moment. */
  ghost predicate WritesKnownCluster(digest: string -> string, s: Store, t: string, call: Call) {
    match call
    case CallSeed(clusterId, findings, _) =>
      forall f :: f in findings && Key(digest, clusterId, f) !in RowsOf(s, t) ==> clusterId in TenantOf(s, t).clusters
    case CallUpsert(row) => row.clusterId in TenantOf(s, t).clusters
    case _ => true
  }

  /**
   * One call keeps rows attached to registered clusters exactly when it writes rows of
   * registered clusters only; deleting a cluster takes its rows along.
   */
  lemma CallKeepsNoOrphans(digest: string -> string, s: Store, t: string, call: Call)
    requires NoOrphans(s, t)
    ensures NoOrphans(After(digest, s, t, call), t) <==> WritesKnownCluster(digest, s, t, call)
  {
    hide Seeded, Key;
    match call
    case CallSeed(clusterId, findings, now) => SeedOrphans(digest, s, t, clusterId, findings, now);
    case CallUpsert(row) => UpsertOrphans(s, t, row);
    case CallDeleteCluster(id) => DeleteOrphans(s, t, id);
    case CallRegister(c) => MoreClusters(s, After(digest, s, t, call), t);
    case CallRecordScan(_, _, _, _) => MoreClusters(s, After(digest, s, t, call), t);
    case CallProvision(_) => MoreClusters(s, After(digest, s, t, call), t);
    case _ =>
  }

  lemma MoreClusters(s: Store, s': Store, t: string)
    requires NoOrphans(s, t) && s.lifecycle == s'.lifecycle
    requires TenantOf(s, t).clusters.Keys <= TenantOf(s', t).clusters.Keys
    ensures NoOrphans(s', t)
  {
    forall k | k in RowsOf(s', t) ensures RowsOf(s', t)[k].clusterId in TenantOf(s', t).clusters {
      assert RowsOf(s, t)[k].clusterId in TenantOf(s, t).clusters.Keys;
    }
  }

  lemma SeedOrphans(digest: string -> string, s: Store, t: string, clusterId: string, findings: seq<Finding>, now: int)
    requires NoOrphans(s, t)
    ensures NoOrphans(SeedFindings(digest, s, t, clusterId, findings, now), t)
      <==> forall f :: f in findings && Key(digest, clusterId, f) !in RowsOf(s, t) ==>
             clusterId in TenantOf(s, t).clusters
  {
    hide Seeded, Key;
    var rows := RowsOf(s, t);
    var rows' := Seeded(digest, rows, clusterId, findings, now);
    SeededRows(digest, rows, clusterId, findings, now);
    assert RowsOf(SeedFindings(digest, s, t, clusterId, findings, now), t) == rows';
    if NoOrphans(SeedFindings(digest, s, t, clusterId, findings, now), t) {
      forall f | f in findings && Key(digest, clusterId, f) !in rows ensures clusterId in TenantOf(s, t).clusters {
        var k := Key(digest, clusterId, f);
        assert k in rows' && rows'[k].clusterId == clusterId;
      }
    }
  }

  lemma UpsertOrphans(s: Store, t: string, row: Row)
    requires NoOrphans(s, t)
    ensures NoOrphans(UpsertLifecycle(s, t, row), t) <==> row.clusterId in TenantOf(s, t).clusters
  {
    var s' := UpsertLifecycle(s, t, row);
    assert RowsOf(s', t)[row.key] == row;
  }

  lemma DeleteOrphans(s: Store, t: string, id: string)
    requires NoOrphans(s, t)
    ensures NoOrphans(DeleteCluster(s, t, id).0, t)
  {
    hide Without;
    var s' := DeleteCluster(s, t, id).0;
    if DeleteCluster(s, t, id).1 {
      assert RowsOf(s', t) == DropCluster(RowsOf(s, t), id);
      assert TenantOf(s', t).clusters == TenantOf(s, t).clusters - {id};
    }
  }

  /**
   * A scan stores its report and seeds its rows in two calls. With a cluster deletion between
   * them, rows of the deleted cluster stay behind, and deleting it again does not remove them.
   */
  lemma OrphanedRows(digest: string -> string, rep: Report, f: Finding)
    requires f in rep.findings
    ensures var trace := [Request("t", CallRecordScan("c", "scan-1", rep, 0)), Request("t", CallDeleteCluster("c")),
                          Request("t", CallSeed("c", rep.findings, 0)), Request("t", CallDeleteCluster("c"))];
      var s := Final(digest, EMPTY_STORE, trace);
      !NoOrphans(s, "t") && GetLifecycle(s, "t", Key(digest, "c", f)).Some?
  {
    hide Seeded, Key, Scanned;
    var s1 := RecordScan(EMPTY_STORE, "t", "c", "scan-1", rep, 0);
    var s2 := DeleteCluster(s1, "t", "c").0;
    assert "c" !in TenantOf(s2, "t").clusters && RowsOf(s2, "t") == map[];
    var s3 := SeedFindings(digest, s2, "t", "c", rep.findings, 0);
    SeededRows(digest, map[], "c", rep.findings, 0);
    assert DeleteCluster(s3, "t", "c") == (s3, false);
    var r0, r1 := Request("t", CallRecordScan("c", "scan-1", rep, 0)), Request("t", CallDeleteCluster("c"));
    var r2 := Request("t", CallSeed("c", rep.findings, 0));
    assert [r0, r1, r2, r1][1..] == [r1, r2, r1] && [r1, r2, r1][1..] == [r2, r1] && [r2, r1][1..] == [r1];
    assert Final(digest, s3, [r1][1..]) == s3 by { assert [r1][1..] == []; }
    assert Final(digest, s3, [r1]) == s3;
    assert Final(digest, s2, [r2, r1]) == s3;
    assert Final(digest, s1, [r1, r2, r1]) == s3;
    var k := Key(digest, "c", f);
    assert k in RowsOf(s3, "t") && RowsOf(s3, "t")[k].clusterId == "c";
  }

  /** `t` does not register or scan `id`, is not erased, and does not overwrite the row under `k`. */
  ghost predicate LeavesOrphan(r: Request, t: string, id: string, k: string) {
    r.tenant == t ==>
      match r.call
      case CallRegister(c) => c.id != id
      case CallRecordScan(clusterId, _, _, _) => clusterId != id
      case CallUpsert(row) => row.key != k
      case CallDeleteTenant => false
      case _ => true
  }

  ghost predicate Orphaned(s: Store, t: string, id: string, k: string, row: Row) {
    id !in TenantOf(s, t).clusters && GetLifecycle(s, t, k) == Some(row) && row.clusterId == id
  }

  lemma OrphanStays(digest: string -> string, s: Store, r: Request, t: string, id: string, k: string, row: Row)
    requires Orphaned(s, t, id, k, row) && LeavesOrphan(r, t, id, k)
    ensures Orphaned(After(digest, s, r.tenant, r.call), t, id, k, row)
  {
    hide Seeded, Key, Scanned, Without;
    if r.tenant != t {
      CallFrames(digest, s, r.tenant, r.call, t);
      var s' := After(digest, s, r.tenant, r.call);
      assert ViewOf(s', t) == ViewOf(s, t);
    } else if r.call.CallSeed? {
      SeededRows(digest, RowsOf(s, t), r.call.clusterId, r.call.findings, r.call.now);
    }
  }

  /** An orphaned row outlives every run, deletions included, until its cluster id is registered or scanned again. */
  lemma {:induction false} OrphanOutlives(digest: string -> string, s: Store, trace: seq<Request>, t: string,
                                          id: string, k: string, row: Row)
    requires Orphaned(s, t, id, k, row) && forall r :: r in trace ==> LeavesOrphan(r, t, id, k)
    ensures Orphaned(Final(digest, s, trace), t, id, k, row)
    decreases |trace|
  {
    hide Orphaned, LeavesOrphan, After;
    if trace != [] {
      OrphanStays(digest, s, trace[0], t, id, k, row);
      OrphanOutlives(digest, After(digest, s, trace[0].tenant, trace[0].call), trace[1..], t, id, k, row);
    }
  }

  /** Registering the id and deleting the cluster removes every row of it, orphaned ones too. */
  lemma ReregisteringClears(s: Store, t: string, c: Cluster, k: string)
    ensures var s' := DeleteCluster(RegisterCluster(s, t, c), t, c.id).0;
      k in RowsOf(s', t) <==> k in RowsOf(s, t) && RowsOf(s, t)[k].clusterId != c.id
  {
    hide Without;
  }

  // ----- every call takes effect -----

  /** What a tenant is answered right after each of its calls. */
  lemma CallsTakeEffect(digest: string -> string, s: Store, t: string, call: Call)
    ensures var s' := After(digest, s, t, call);
      match call
      case CallRegister(c) => GetCluster(s', t, c.id).Some?
      case CallDeleteCluster(id) =>
        AnswerTo(s, t, call) == Deleted(GetCluster(s, t, id).Some?) && GetCluster(s', t, id).None?
      case CallRecordScan(clusterId, scanId, rep, at) => clusterId != "" ==> GetReport(s', t, clusterId) == Some(rep)
      case CallProvision(name) =>
        t in s'.tenants && s'.tenants[t].displayName == if name == "" then TenantOf(s, t).displayName else name
      case CallDeleteTenant => t !in s'.tenants && t !in s'.lifecycle
      case CallSeed(clusterId, findings, now) =>
        forall f :: f in findings ==> GetLifecycle(s', t, Key(digest, clusterId, f)).Some?
      case CallUpsert(row) => GetLifecycle(s', t, row.key) == Some(row)
      case _ => s' == s
  {
    hide Seeded, Key, PostureControls, Without;
    if call.CallSeed? {
      SeededRows(digest, RowsOf(s, t), call.clusterId, call.findings, call.now);
    }
  }
}
