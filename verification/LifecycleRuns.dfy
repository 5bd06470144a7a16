/**
 * Every run of the dashboard's handlers: what rows look like, which audit proof each waiver
 * has, and what never changes about a tracked finding. Each handler is one atomic step.
 */
module LifecycleRuns {
  import opened Common
  import opened Api
  import opened Rows
  import opened Store
  import opened Dashboard
  import I = Isolation
  import T = TriageLane

  datatype Step =
    | Triage(p: Principal, key: string, body: Option<TriageBody>, t1: int, t2: int)
    | Waive(p: Principal, key: string, waiver: Option<WaiverBody>, t0: int, t1: int, t2: int)
    | Revoke(p: Principal, key: string, now: int)
    | Erase(p: Principal, target: string, validId: bool, now: int)
    | Scan(tenant: string, clusterId: string, subject: string, scanId: string, outcome: Result<Report>,
           t1: int, t2: int, t3: int)
    | Register(p: Principal, c: Cluster, now: int)
    | Unregister(p: Principal, id: string, now: int)

  function Apply(cfg: Config, sys: System, step: Step): System {
    match step
    case Triage(p, key, body, t1, t2) => SetState(cfg, sys, p, key, body, t1, t2).0
    case Waive(p, key, body, t0, t1, t2) => CreateWaiver(cfg, sys, p, key, body, t0, t1, t2).0
    case Revoke(p, key, now) => DeleteWaiver(sys, p, key, now).0
    case Erase(p, target, validId, now) => EraseTenant(sys, p, target, validId, now).0
    case Scan(t, clusterId, subject, scanId, outcome, t1, t2, t3) =>
      FinishScan(cfg, sys, t, clusterId, subject, scanId, outcome, t1, t2, t3)
    case Register(p, c, now) => AddCluster(sys, p, c, now)
    case Unregister(p, id, now) => DropClusterStep(sys, p, id, now)
  }

  /** Within one handler the clock never goes back. */
  ghost predicate ClockOrdered(step: Step) {
    match step
    case Waive(_, _, _, t0, t1, t2) => t0 <= t1 <= t2
    case _ => true
  }

  function Run(cfg: Config, sys: System, steps: seq<Step>): System {
    if steps == [] then sys else Apply(cfg, Run(cfg, sys, steps[..|steps| - 1]), steps[|steps| - 1])
  }

  // ----- the invariant -----

  /** A waiver ends within the maximum duration of its creation, up to the second it is rounded to. */
  ghost predicate Bounded(cfg: Config, w: Waiver) {
    w.expiresAt.Some? && Instant(w.expiresAt.value) < Instant(w.createdAt) + SECOND + cfg.maxWaiver
  }

  ghost predicate RowShape(cfg: Config, key: string, r: Row) {
    && r.key == key == cfg.digest(Preimage(r.clusterId, r.findingId, r.resource))
    && (r.state == RiskAccepted <==> r.waiver.Some?)
    && (r.resolvedAt.Some? <==> r.state == Resolved)
    && (r.waiver.Some? ==> r.waiver.value.justification != "" && Bounded(cfg, r.waiver.value))
  }

  ghost predicate Proves(e: AuditEntry, t: string, r: Row)
    requires r.waiver.Some?
  {
    && e.tenant == t && e.action == "finding.waiver" && e.result == "allowed"
    && e.subject == r.waiver.value.approvedBy && e.at == r.waiver.value.createdAt
    && r.waiver.value.expiresAt.Some? && e.resource == Until(r.findingId, r.waiver.value.expiresAt.value)
  }

  /** A waived row has its approval on the tenant's audit log. */
  ghost predicate Approved(a: Audit, t: string, r: Row) {
    r.waiver.Some? ==> exists e :: e in Entries(a, t) && Proves(e, t, r)
  }

  ghost predicate RowsFine(cfg: Config, sys: System, t: string) {
    forall k :: k in RowsOf(sys.store, t) ==>
      RowShape(cfg, k, RowsOf(sys.store, t)[k]) && Approved(sys.audit, t, RowsOf(sys.store, t)[k])
  }

  ghost predicate Inv(cfg: Config, sys: System) {
    && ValidStore(sys.store)
    && (forall t :: RowsFine(cfg, sys, t))
    && (forall t :: I.NoOrphans(sys.store, t))
  }

  // ----- building blocks -----

  lemma EntriesGrow(a: Audit, e: AuditEntry, t: string)
    ensures Within(Entries(a, t), Entries(Written(a, e), t))
    ensures e in Entries(Written(a, e), e.tenant)
  {
  }

  /** Rows that did not change stay fine when the log only grows. */
  lemma StillApproved(a: Audit, e: AuditEntry, t: string, r: Row)
    requires Approved(a, t, r)
    ensures Approved(Written(a, e), t, r)
  {
  }

  /** Storing one good row keeps everything. */
  lemma UpsertKeeps(cfg: Config, sys: System, t: string, r: Row, e: AuditEntry)
    requires Inv(cfg, sys)
    requires RowShape(cfg, r.key, r) && r.clusterId in TenantOf(sys.store, t).clusters
    requires Approved(Written(sys.audit, e), t, r)
    ensures Inv(cfg, System(UpsertLifecycle(sys.store, t, r), Written(sys.audit, e)))
  {
    hide RowShape, Approved, ValidTenant, Written;
    var s' := UpsertLifecycle(sys.store, t, r);
    var sys' := System(s', Written(sys.audit, e));
    forall u ensures RowsFine(cfg, sys', u) && I.NoOrphans(s', u) {
      assert RowsFine(cfg, sys, u) && I.NoOrphans(sys.store, u);
      UpsertKeepsRows(cfg, sys, t, r, e, u);
    }
    RowKeyIs(cfg, r);
    assert Keyed(RowsOf(s', t)) by { assert Keyed(RowsOf(sys.store, t)); }
  }

  lemma RowKeyIs(cfg: Config, r: Row)
    requires RowShape(cfg, r.key, r)
    ensures r.key == cfg.digest(Preimage(r.clusterId, r.findingId, r.resource))
  {
  }

  lemma UpsertKeepsRows(cfg: Config, sys: System, t: string, r: Row, e: AuditEntry, u: string)
    requires RowsFine(cfg, sys, u) && I.NoOrphans(sys.store, u)
    requires RowShape(cfg, r.key, r) && r.clusterId in TenantOf(sys.store, t).clusters
    requires Approved(Written(sys.audit, e), t, r)
    ensures RowsFine(cfg, System(UpsertLifecycle(sys.store, t, r), Written(sys.audit, e)), u)
    ensures I.NoOrphans(UpsertLifecycle(sys.store, t, r), u)
  {
    hide RowShape, Approved, Written;
    var s' := UpsertLifecycle(sys.store, t, r);
    forall k | k in RowsOf(s', u)
      ensures RowShape(cfg, k, RowsOf(s', u)[k]) && Approved(Written(sys.audit, e), u, RowsOf(s', u)[k])
      ensures RowsOf(s', u)[k].clusterId in TenantOf(s', u).clusters
    {
      if u == t && k == r.key {
        assert RowsOf(s', u)[k] == r;
      } else {
        assert k in RowsOf(sys.store, u) && RowsOf(s', u)[k] == RowsOf(sys.store, u)[k];
        StillApproved(sys.audit, e, u, RowsOf(sys.store, u)[k]);
      }
    }
  }

  ghost predicate RowsShaped(cfg: Config, s: Store, t: string) {
    forall k :: k in RowsOf(s, t) ==> RowShape(cfg, k, RowsOf(s, t)[k])
  }

  /** A loaded row is stored, or open and untracked with the identity its key encodes. */
  lemma LoadedShape(cfg: Config, s: Store, t: string, key: string, now: int)
    requires RowsShaped(cfg, s, t) && LoadOrInit(cfg, s, t, key, now).Some?
    ensures RowShape(cfg, key, LoadOrInit(cfg, s, t, key, now).value)
  {
    hide FirstWithKey, Candidates;
    FirstWithKeyFound(cfg.digest, Candidates(s, t), key);
  }

  lemma LoadedRow(cfg: Config, sys: System, t: string, key: string, now: int)
    requires Inv(cfg, sys) && LoadOrInit(cfg, sys.store, t, key, now).Some?
    ensures var r := LoadOrInit(cfg, sys.store, t, key, now).value;
      RowShape(cfg, key, r) && r.clusterId in TenantOf(sys.store, t).clusters
  {
    hide FirstWithKey, Candidates, RowShape, ValidStore;
    assert RowsFine(cfg, sys, t) && I.NoOrphans(sys.store, t);
    LoadedShape(cfg, sys.store, t, key, now);
    if GetLifecycle(sys.store, t, key).None? {
      FirstWithKeyFound(cfg.digest, Candidates(sys.store, t), key);
      var c := FirstWithKey(cfg.digest, Candidates(sys.store, t), key).value;
      CandidateCluster(sys.store, t, c);
    }
  }

  lemma CandidateCluster(s: Store, t: string, c: Current)
    requires ValidStore(s) && c in Candidates(s, t)
    ensures c.clusterId in TenantOf(s, t).clusters
  {
    hide FlatMap, GetReport;
    FlatMapMembers(CurrentOf(s, t), ClusterIds(s, t), c);
    var id :| id in ClusterIds(s, t) && c in CurrentOf(s, t)(id);
    FlatMapMembers(Tagged(id), GetReport(s, t, id).value.findings, c);
    FlatMapMembers(IdOf, ListClusters(s, t), id);
    var cl :| cl in ListClusters(s, t) && id in IdOf(cl);
    assert t !in s.tenants ==> ListClusters(s, t) == [];
    var ts := s.tenants[t];
    FlatMapMembers(MetaOf(ts), ts.order, cl);
    var x :| x in ts.order && cl in MetaOf(ts)(x);
    assert ValidTenant(ts);
    assert ValidCluster(x, ts.clusters[x]);
  }

  // ----- each step keeps the invariant -----

  lemma TriageKeeps(cfg: Config, sys: System, p: Principal, key: string, body: Option<TriageBody>, t1: int, t2: int)
    requires Inv(cfg, sys)
    ensures Inv(cfg, SetState(cfg, sys, p, key, body, t1, t2).0)
  {
    hide LoadOrInit, Inv, Written, TriageState;
    if body.Some? && TriageState(body.value.state).Some? && LoadOrInit(cfg, sys.store, p.tenant, key, t1).Some? {
      var r := LoadOrInit(cfg, sys.store, p.tenant, key, t1).value;
      LoadedRow(cfg, sys, p.tenant, key, t1);
      var state := TriageState(body.value.state).value;
      TriageNeverAccepts(body.value.state);
      var row := Triaged(r, state, body.value.assignee, Stamp(t2));
      UpsertKeeps(cfg, sys, p.tenant, row, AuditEntry(Stamp(t2), p.subject, p.tenant, "finding.triage",
                                                     Transition(r.findingId, r.state, state), "allowed"));
    }
  }

  lemma TriageNeverAccepts(text: string)
    ensures TriageState(text).Some? ==> TriageState(text).value != RiskAccepted
    ensures TriageState("risk-accepted") == None
  {
  }

  lemma WaiverBound(cfg: Config, exp: int, t0: int, t2: int)
    requires t0 < exp <= t0 + cfg.maxWaiver && t0 <= t2
    ensures Instant(Stamp(exp)) < Instant(Stamp(t2)) + SECOND + cfg.maxWaiver
  {
  }

  lemma WaiveKeeps(cfg: Config, sys: System, p: Principal, key: string, body: Option<WaiverBody>, t0: int,
                   t1: int, t2: int)
    requires Inv(cfg, sys) && t0 <= t1 <= t2
    ensures Inv(cfg, CreateWaiver(cfg, sys, p, key, body, t0, t1, t2).0)
  {
    hide LoadOrInit, Inv, Written, Stamp, Instant;
    if WaiverAccepted(cfg, body, t0) && LoadOrInit(cfg, sys.store, p.tenant, key, t1).Some? {
      var r := LoadOrInit(cfg, sys.store, p.tenant, key, t1).value;
      LoadedRow(cfg, sys, p.tenant, key, t1);
      var exp := body.value.expiresAt.value;
      WaiverBound(cfg, exp, t0, t2);
      var row := Waived(r, body.value.justification, p.subject, Stamp(t2), Stamp(exp));
      var e := AuditEntry(Stamp(t2), p.subject, p.tenant, "finding.waiver", Until(r.findingId, Stamp(exp)), "allowed");
      EntriesGrow(sys.audit, e, p.tenant);
      assert Proves(e, p.tenant, row);
      UpsertKeeps(cfg, sys, p.tenant, row, e);
    }
  }

  lemma RevokeKeeps(cfg: Config, sys: System, p: Principal, key: string, now: int)
    requires Inv(cfg, sys)
    ensures Inv(cfg, DeleteWaiver(sys, p, key, now).0)
  {
    hide Written, ValidStore;
    var g := GetLifecycle(sys.store, p.tenant, key);
    if g.Some? && g.value.waiver.Some? {
      var r := g.value;
      assert RowsFine(cfg, sys, p.tenant) && I.NoOrphans(sys.store, p.tenant);
      assert RowShape(cfg, key, r);
      var row := Revoked(r, Stamp(now));
      UpsertKeeps(cfg, sys, p.tenant, row, AuditEntry(Stamp(now), p.subject, p.tenant, "finding.waiver.revoke",
                                                     Plain(r.findingId), "allowed"));
    }
  }

  /** A step that only appends to the log. */
  lemma LogKeeps(cfg: Config, sys: System, e: AuditEntry)
    requires Inv(cfg, sys)
    ensures Inv(cfg, sys.(audit := Written(sys.audit, e)))
  {
    hide RowShape, Approved, Written, ValidStore, I.NoOrphans;
    forall t ensures RowsFine(cfg, sys.(audit := Written(sys.audit, e)), t) {
      assert RowsFine(cfg, sys, t);
      forall k | k in RowsOf(sys.store, t) ensures Approved(Written(sys.audit, e), t, RowsOf(sys.store, t)[k]) {
        StillApproved(sys.audit, e, t, RowsOf(sys.store, t)[k]);
      }
    }
  }

  /** A step on clusters: rows are unchanged, or only lost. */
  lemma ClusterStepKeeps(cfg: Config, sys: System, s': Store, e: AuditEntry)
    requires Inv(cfg, sys) && ValidStore(s')
    requires forall t :: I.NoOrphans(s', t)
    requires forall t, k :: k in RowsOf(s', t) ==>
      k in RowsOf(sys.store, t) && RowsOf(s', t)[k] == RowsOf(sys.store, t)[k]
    ensures Inv(cfg, System(s', Written(sys.audit, e)))
  {
    hide RowShape, Approved, Written, ValidStore, I.NoOrphans;
    LogKeeps(cfg, sys, e);
    var mid := sys.(audit := Written(sys.audit, e));
    forall t ensures RowsFine(cfg, System(s', Written(sys.audit, e)), t) {
      assert RowsFine(cfg, mid, t);
    }
  }

  lemma OrphansFrame(s: Store, s': Store, t: string)
    requires I.NoOrphans(s, t) && RowsOf(s', t) == RowsOf(s, t) && TenantOf(s', t) == TenantOf(s, t)
    ensures I.NoOrphans(s', t)
  {
  }

  lemma RegisterKeeps(cfg: Config, sys: System, p: Principal, c: Cluster, now: int)
    requires Inv(cfg, sys)
    ensures Inv(cfg, AddCluster(sys, p, c, now))
  {
    hide RowShape, Approved, Written;
    var s' := RegisterCluster(sys.store, p.tenant, c);
    I.CallKeepsValid(cfg.digest, sys.store, p.tenant, I.CallRegister(c));
    forall t ensures I.NoOrphans(s', t) {
      assert I.NoOrphans(sys.store, t);
      if t == p.tenant { I.MoreClusters(sys.store, s', t); } else { OrphansFrame(sys.store, s', t); }
    }
    ClusterStepKeeps(cfg, sys, s',
      AuditEntry(Stamp(now), p.subject, p.tenant, "cluster.write", Plain(c.id), "allowed"));
  }

  lemma UnregisterKeeps(cfg: Config, sys: System, p: Principal, id: string, now: int)
    requires Inv(cfg, sys)
    ensures Inv(cfg, DropClusterStep(sys, p, id, now))
  {
    hide RowShape, Approved, Written, Without;
    var s' := DeleteCluster(sys.store, p.tenant, id).0;
    I.CallKeepsValid(cfg.digest, sys.store, p.tenant, I.CallDeleteCluster(id));
    forall t ensures I.NoOrphans(s', t) {
      assert I.NoOrphans(sys.store, t);
      if t == p.tenant { I.DeleteOrphans(sys.store, t, id); } else { OrphansFrame(sys.store, s', t); }
    }
    ClusterStepKeeps(cfg, sys, s', AuditEntry(Stamp(now), p.subject, p.tenant, "cluster.delete", Plain(id), "allowed"));
  }

  lemma EraseKeeps(cfg: Config, sys: System, p: Principal, target: string, validId: bool, now: int)
    requires Inv(cfg, sys)
    ensures Inv(cfg, EraseTenant(sys, p, target, validId, now).0)
  {
    hide RowShape, ValidTenant;
    var e := AuditEntry(Stamp(now), p.subject, p.tenant, "tenant.delete", Plain(target), "allowed");
    if target == "" || !validId {
    } else if target != p.tenant && !p.superAdmin {
      LogKeeps(cfg, sys, e.(result := "denied"));
    } else {
      LogKeeps(cfg, sys, e);
      var mid := sys.(audit := Written(sys.audit, e));
      var sys' := System(DeleteTenant(sys.store, target), mid.audit - {target});
      forall t ensures RowsFine(cfg, sys', t) && I.NoOrphans(sys'.store, t) {
        if t == target {
          assert RowsOf(sys'.store, t) == map[];
        } else {
          assert RowsFine(cfg, mid, t) && I.NoOrphans(sys.store, t);
          assert RowsOf(sys'.store, t) == RowsOf(sys.store, t) && TenantOf(sys'.store, t) == TenantOf(sys.store, t);
          assert Entries(sys'.audit, t) == Entries(mid.audit, t);
        }
      }
    }
  }

  lemma SeedRowShape(cfg: Config, clusterId: string, f: Finding, now: int)
    ensures RowShape(cfg, Key(cfg.digest, clusterId, f), SeedRow(cfg.digest, clusterId, f, now))
    ensures SeedRow(cfg.digest, clusterId, f, now).waiver.None?
  {
  }

  lemma ScanKeeps(cfg: Config, sys: System, t: string, clusterId: string, subject: string, scanId: string,
                  outcome: Result<Report>, t1: int, t2: int, t3: int)
    requires Inv(cfg, sys)
    ensures Inv(cfg, FinishScan(cfg, sys, t, clusterId, subject, scanId, outcome, t1, t2, t3))
  {
    hide RowShape, Approved, Written, Stamp, Seeded, Key, Recorded, ValidTenant, I.NoOrphans, RowsFine;
    var e := AuditEntry(Stamp(t3), subject, t, "scan.trigger", Plain(clusterId), "failed");
    LogKeeps(cfg, sys, e);
    if outcome.Ok? {
      var rep := outcome.value;
      LogKeeps(cfg, sys, e.(result := "allowed"));
      var s1 := RecordScan(sys.store, t, clusterId, scanId, rep, Stamp(t1));
      I.CallKeepsValid(cfg.digest, sys.store, t, I.CallRecordScan(clusterId, scanId, rep, Stamp(t1)));
      I.CallKeepsValid(cfg.digest, s1, t, I.CallSeed(clusterId, rep.findings, Stamp(t2)));
      forall u ensures I.NoOrphans(s1, u) {
        assert I.NoOrphans(sys.store, u);
        RecordOrphans(sys.store, t, clusterId, scanId, rep, Stamp(t1), u);
      }
      var mid := System(s1, Written(sys.audit, e.(result := "allowed")));
      forall u ensures RowsFine(cfg, mid, u) {
        assert RowsFine(cfg, sys.(audit := mid.audit), u);
        SameRows(cfg, sys.(audit := mid.audit), mid, u);
      }
      forall u
        ensures RowsFine(cfg, System(SeedFindings(cfg.digest, s1, t, clusterId, rep.findings, Stamp(t2)), mid.audit), u)
        && I.NoOrphans(SeedFindings(cfg.digest, s1, t, clusterId, rep.findings, Stamp(t2)), u)
      {
        assert RowsFine(cfg, mid, u);
        RecordedRegistered(sys.store, t, clusterId, scanId, rep, Stamp(t1));
        SeedKeepsRows(cfg, mid, t, clusterId, rep.findings, Stamp(t2), u);
      }
    }
  }

  lemma RecordedRegistered(s: Store, t: string, clusterId: string, scanId: string, rep: Report, at: int)
    ensures clusterId in TenantOf(RecordScan(s, t, clusterId, scanId, rep, at), t).clusters
  {
  }

  lemma RecordOrphans(s: Store, t: string, clusterId: string, scanId: string, rep: Report, at: int, u: string)
    requires I.NoOrphans(s, u)
    ensures I.NoOrphans(RecordScan(s, t, clusterId, scanId, rep, at), u)
  {
    hide Scanned;
    I.MoreClusters(s, RecordScan(s, t, clusterId, scanId, rep, at), u);
  }

  lemma SameRows(cfg: Config, a: System, b: System, u: string)
    requires a.audit == b.audit && a.store.lifecycle == b.store.lifecycle && RowsFine(cfg, a, u)
    ensures RowsFine(cfg, b, u)
  {
    hide RowShape, Approved;
    assert RowsOf(a.store, u) == RowsOf(b.store, u);
  }

  lemma SeedKeepsRows(cfg: Config, sys: System, t: string, clusterId: string, findings: seq<Finding>, now: int,
                      u: string)
    requires RowsFine(cfg, sys, u) && I.NoOrphans(sys.store, u) && clusterId in TenantOf(sys.store, t).clusters
    ensures RowsFine(cfg, System(SeedFindings(cfg.digest, sys.store, t, clusterId, findings, now), sys.audit), u)
    ensures I.NoOrphans(SeedFindings(cfg.digest, sys.store, t, clusterId, findings, now), u)
  {
    hide RowShape, Seeded, Key;
    var s' := SeedFindings(cfg.digest, sys.store, t, clusterId, findings, now);
    SeededRows(cfg.digest, RowsOf(sys.store, t), clusterId, findings, now);
    if u == t {
      assert RowsOf(s', t) == Seeded(cfg.digest, RowsOf(sys.store, t), clusterId, findings, now);
      forall k | k in RowsOf(s', t) && k !in RowsOf(sys.store, t)
        ensures RowShape(cfg, k, RowsOf(s', t)[k]) && RowsOf(s', t)[k].waiver.None?
          && RowsOf(s', t)[k].clusterId == clusterId
      {
        var f :| f in findings && k == Key(cfg.digest, clusterId, f)
          && RowsOf(s', t)[k] == SeedRow(cfg.digest, clusterId, f, now);
        SeedRowShape(cfg, clusterId, f, now);
      }
    } else {
      assert RowsOf(s', u) == RowsOf(sys.store, u);
    }
  }

  lemma StepKeeps(cfg: Config, sys: System, step: Step)
    requires Inv(cfg, sys) && ClockOrdered(step)
    ensures Inv(cfg, Apply(cfg, sys, step))
  {
    hide Inv, SetState, CreateWaiver, DeleteWaiver, EraseTenant, FinishScan, AddCluster, DropClusterStep;
    match step
    case Triage(p, key, body, t1, t2) => TriageKeeps(cfg, sys, p, key, body, t1, t2);
    case Waive(p, key, body, t0, t1, t2) => WaiveKeeps(cfg, sys, p, key, body, t0, t1, t2);
    case Revoke(p, key, now) => RevokeKeeps(cfg, sys, p, key, now);
    case Erase(p, target, validId, now) => EraseKeeps(cfg, sys, p, target, validId, now);
    case Scan(t, clusterId, subject, scanId, outcome, t1, t2, t3) =>
      ScanKeeps(cfg, sys, t, clusterId, subject, scanId, outcome, t1, t2, t3);
    case Register(p, c, now) => RegisterKeeps(cfg, sys, p, c, now);
    case Unregister(p, id, now) => UnregisterKeeps(cfg, sys, p, id, now);
  }

  const EMPTY_SYSTEM := System(EMPTY_STORE, map[])

  lemma EmptySystemFine(cfg: Config)
    ensures Inv(cfg, EMPTY_SYSTEM)
  {
  }

  /**
   * After every run: risk-accepted exactly with a waiver, resolved exactly with a resolution time,
   * every waiver justified, bounded and approved on the tenant's own log, every row under the key
   * of its identity and attached to a registered cluster.
   */
  lemma {:induction false} EveryRun(cfg: Config, steps: seq<Step>)
    requires forall s :: s in steps ==> ClockOrdered(s)
    ensures Inv(cfg, Run(cfg, EMPTY_SYSTEM, steps))
  {
    hide Inv, Apply;
    if steps == [] {
      EmptySystemFine(cfg);
    } else {
      EveryRun(cfg, steps[..|steps| - 1]);
      StepKeeps(cfg, Run(cfg, EMPTY_SYSTEM, steps[..|steps| - 1]), steps[|steps| - 1]);
    }
  }

  /** With a maximum of whole seconds the bound is exact. */
  lemma BoundInWholeSeconds(cfg: Config, w: Waiver)
    requires Bounded(cfg, w) && cfg.maxWaiver % SECOND == 0
    ensures w.expiresAt.value <= w.createdAt + cfg.maxWaiver / SECOND
  {
  }

  // ----- what never changes about a tracked finding -----

  ghost predicate SameFinding(a: Row, b: Row) {
    a.key == b.key && a.clusterId == b.clusterId && a.findingId == b.findingId && a.resource == b.resource
    && a.firstSeen == b.firstSeen
  }

  /** While a row exists, no step changes its identity or when it was first seen. */
  lemma FirstSeenFixed(cfg: Config, sys: System, step: Step, t: string, k: string)
    requires k in RowsOf(sys.store, t) && k in RowsOf(Apply(cfg, sys, step).store, t)
    requires ValidStore(sys.store)
    ensures SameFinding(RowsOf(sys.store, t)[k], RowsOf(Apply(cfg, sys, step).store, t)[k])
  {
    hide LoadOrInit, Written, Seeded, Recorded, Registered, Removed, Stamp, TriageState, WaiverAccepted, ValidTenant;
    assert forall u :: Keyed(RowsOf(sys.store, u));
    match step
    case Scan(u, clusterId, subject, scanId, outcome, t1, t2, t3) =>
      if outcome.Ok? && u == t {
        SeededRows(cfg.digest, RowsOf(sys.store, t), clusterId, outcome.value.findings, Stamp(t2));
      }
    case Triage(p, key, body, t1, t2) =>
      LoadedIsStored(cfg, sys.store, p.tenant, key, t1);
      var resp := SetState(cfg, sys, p, key, body, t1, t2).1;
      if resp.Saved? { UpsertSameFinding(sys.store, p.tenant, resp.row, t, k); }
    case Waive(p, key, body, t0, t1, t2) =>
      LoadedIsStored(cfg, sys.store, p.tenant, key, t1);
      var resp := CreateWaiver(cfg, sys, p, key, body, t0, t1, t2).1;
      if resp.Saved? { UpsertSameFinding(sys.store, p.tenant, resp.row, t, k); }
    case Revoke(p, key, now) =>
    case Erase(p, target, validId, now) =>
    case Register(p, c, now) =>
    case Unregister(p, id, now) =>
  }

  lemma UpsertSameFinding(s: Store, t: string, r: Row, u: string, k: string)
    requires k in RowsOf(s, u) && (u == t && r.key == k ==> SameFinding(RowsOf(s, u)[k], r))
    ensures SameFinding(RowsOf(s, u)[k], RowsOf(UpsertLifecycle(s, t, r), u)[k])
  {
  }

  lemma LoadedIsStored(cfg: Config, s: Store, t: string, key: string, now: int)
    ensures key in RowsOf(s, t) ==> LoadOrInit(cfg, s, t, key, now) == Some(RowsOf(s, t)[key])
    ensures key !in RowsOf(s, t) && LoadOrInit(cfg, s, t, key, now).Some? ==>
      LoadOrInit(cfg, s, t, key, now).value.key == key
  {
  }

  // ----- suppression comes from waivers only -----

  /** Unless the step waives for the tenant, a waived row after it was there before. */
  lemma WaiverStays(cfg: Config, sys: System, step: Step, t: string, k: string)
    requires ValidStore(sys.store) && !(step.Waive? && step.p.tenant == t)
    requires k in RowsOf(Apply(cfg, sys, step).store, t)
    requires RowsOf(Apply(cfg, sys, step).store, t)[k].waiver.Some?
    ensures k in RowsOf(sys.store, t) && RowsOf(sys.store, t)[k] == RowsOf(Apply(cfg, sys, step).store, t)[k]
  {
    hide LoadOrInit, Written, Seeded, Recorded, Registered, Removed, Stamp, TriageState, WaiverAccepted, ValidTenant;
    if step.Scan? && step.outcome.Ok? && step.tenant == t {
      SeededRows(cfg.digest, RowsOf(sys.store, t), step.clusterId, step.outcome.value.findings, Stamp(step.t2));
    }
  }

  lemma StillWaived(r: Row, now: int, later: int)
    requires now <= later && ActivelyWaived(r, later)
    ensures ActivelyWaived(r, now)
  {
    hide Active;
    if !Active(r.waiver, now) { ExpiryIsFinal(r, now, later); }
  }

  ghost predicate WaivesFor(steps: seq<Step>, t: string) {
    exists s :: s in steps && s.Waive? && s.p.tenant == t
  }

  /**
   * Over every run in which nobody waives for the tenant, and as time passes, the set of suppressed
   * findings only shrinks: a lapsed waiver never comes back.
   */
  lemma {:induction false} SuppressionShrinks(cfg: Config, sys: System, steps: seq<Step>, t: string,
                                              now: int, later: int)
    requires ValidStore(sys.store) && now <= later && !WaivesFor(steps, t)
    ensures ValidStore(Run(cfg, sys, steps).store)
    ensures T.Waived(Run(cfg, sys, steps).store, t, "", later) <= T.Waived(sys.store, t, "", now)
  {
    hide Apply, ValidStore, ActivelyWaived;
    if steps == [] {
      forall k | k in T.Waived(sys.store, t, "", later) ensures k in T.Waived(sys.store, t, "", now) {
        StillWaived(RowsOf(sys.store, t)[k], now, later);
      }
    } else {
      var front, last := steps[..|steps| - 1], steps[|steps| - 1];
      assert last in steps;
      SuppressionShrinks(cfg, sys, front, t, now, later);
      var mid := Run(cfg, sys, front);
      StepKeepsValid(cfg, mid, last);
      forall k | k in T.Waived(Apply(cfg, mid, last).store, t, "", later)
        ensures k in T.Waived(mid.store, t, "", later)
      {
        HasWaiver(RowsOf(Apply(cfg, mid, last).store, t)[k], later);
        WaiverStays(cfg, mid, last, t, k);
      }
    }
  }

  lemma HasWaiver(r: Row, now: int)
    requires ActivelyWaived(r, now)
    ensures r.waiver.Some?
  {
  }

  lemma UpsertValid(s: Store, t: string, r: Row)
    requires ValidStore(s)
    ensures ValidStore(UpsertLifecycle(s, t, r))
  {
    hide ValidTenant;
  }

  lemma StepKeepsValid(cfg: Config, sys: System, step: Step)
    requires ValidStore(sys.store)
    ensures ValidStore(Apply(cfg, sys, step).store)
  {
    hide LoadOrInit, Written, Stamp, TriageState, WaiverAccepted, ValidStore, RegisterCluster, RecordScan, DeleteTenant,
      SeedFindings, UpsertLifecycle;
    match step
    case Triage(p, key, body, t1, t2) =>
      var resp := SetState(cfg, sys, p, key, body, t1, t2).1;
      if resp.Saved? { UpsertValid(sys.store, p.tenant, resp.row); }
    case Waive(p, key, body, t0, t1, t2) =>
      var resp := CreateWaiver(cfg, sys, p, key, body, t0, t1, t2).1;
      if resp.Saved? { UpsertValid(sys.store, p.tenant, resp.row); }
    case Revoke(p, key, now) =>
      var resp := DeleteWaiver(sys, p, key, now).1;
      if resp.Saved? { UpsertValid(sys.store, p.tenant, resp.row); }
    case Erase(p, target, _, _) => I.CallKeepsValid(cfg.digest, sys.store, target, I.CallDeleteTenant);
    case Scan(t, clusterId, _, scanId, outcome, t1, t2, _) =>
      if outcome.Ok? {
        var rep := outcome.value;
        I.CallKeepsValid(cfg.digest, sys.store, t, I.CallRecordScan(clusterId, scanId, rep, Stamp(t1)));
        var s1 := RecordScan(sys.store, t, clusterId, scanId, rep, Stamp(t1));
        I.CallKeepsValid(cfg.digest, s1, t, I.CallSeed(clusterId, rep.findings, Stamp(t2)));
      }
    case Register(p, c, _) => I.CallKeepsValid(cfg.digest, sys.store, p.tenant, I.CallRegister(c));
    case Unregister(p, id, _) => I.CallKeepsValid(cfg.digest, sys.store, p.tenant, I.CallDeleteCluster(id));
  }

  // ----- two corners -----

  /** A stored waiver suppresses the finding at its creation exactly when it outlives that second. */
  lemma ActiveAtCreation(cfg: Config, sys: System, p: Principal, key: string, body: Option<WaiverBody>,
                         t0: int, t1: int, t2: int)
    requires CreateWaiver(cfg, sys, p, key, body, t0, t1, t2).1.Saved?
    ensures ActivelyWaived(CreateWaiver(cfg, sys, p, key, body, t0, t1, t2).1.row, t2)
      <==> Stamp(body.value.expiresAt.value) > Stamp(t2)
  {
    hide LoadOrInit, Written;
    StampTruncates(t2);
  }

  /** A waiver of a nanosecond is accepted and stored for any tracked finding, and suppresses nothing. */
  lemma ExpiredOnArrival(cfg: Config, sys: System, p: Principal, key: string)
    requires cfg.maxWaiver >= 1 && ValidStore(sys.store) && key in RowsOf(sys.store, p.tenant)
    ensures var (sys', resp) := CreateWaiver(cfg, sys, p, key, Some(WaiverBody("why", Some(1))), 0, 0, 0);
      && resp.Saved? && GetLifecycle(sys'.store, p.tenant, key) == Some(resp.row)
      && resp.row.state == RiskAccepted && resp.row.waiver.Some?
      && !ActivelyWaived(resp.row, 0) && EffectiveState(resp.row, 0) == Open
  {
    hide Written, ValidTenant;
    LoadedIsStored(cfg, sys.store, p.tenant, key, 0);
    assert Keyed(RowsOf(sys.store, p.tenant));
  }

  /** An erasure leaves its proof behind exactly when the target is not the actor's own tenant. */
  lemma ErasureProof(sys: System, p: Principal, target: string, now: int)
    requires target != "" && (target == p.tenant || p.superAdmin)
    ensures var sys' := EraseTenant(sys, p, target, true, now).0;
      (exists e :: e in Entries(sys'.audit, p.tenant) && e.action == "tenant.delete" && e.resource == Plain(target)
                   && e.subject == p.subject && e.result == "allowed")
      <==> target != p.tenant
  {
    var e := AuditEntry(Stamp(now), p.subject, p.tenant, "tenant.delete", Plain(target), "allowed");
    EntriesGrow(sys.audit, e, p.tenant);
  }

  // ----- who may erase -----

  /** Everything held for a tenant: store and log. */
  ghost predicate SameTenant(a: System, b: System, t: string) {
    I.ViewOf(a.store, t) == I.ViewOf(b.store, t) && Entries(a.audit, t) == Entries(b.audit, t)
  }

  /** An erasure changes another tenant's data only if its actor is a super-admin and named that tenant. */
  lemma EraseNeedsAuthority(cfg: Config, sys: System, p: Principal, target: string, validId: bool, now: int, t: string)
    requires t != p.tenant
    ensures !SameTenant(sys, Apply(cfg, sys, Erase(p, target, validId, now)), t) ==> p.superAdmin && t == target
  {
  }

  /** A scan's report and a cluster change are what is answered next. */
  lemma StepsTakeEffect(cfg: Config, sys: System, step: Step)
    ensures match step
      case Scan(t, clusterId, _, _, Ok(rep), _, _, _) =>
        clusterId != "" ==> GetReport(Apply(cfg, sys, step).store, t, clusterId) == Some(rep)
      case Register(p, c, _) => GetCluster(Apply(cfg, sys, step).store, p.tenant, c.id).Some?
      case Unregister(p, id, _) => GetCluster(Apply(cfg, sys, step).store, p.tenant, id).None?
      case _ => true
  {
    hide Seeded, PostureControls, Without, Written, LoadOrInit;
  }
}
