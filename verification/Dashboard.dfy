/**
 * The dashboard handlers as steps, with HTTP stripped: triage, waivers, revocation, scans,
 * cluster registration and tenant erasure, over the store and the audit log. Request bodies
 * arrive decoded (`None` when they do not decode), clock readings as parameters.
 */
module Dashboard {
  import opened Common
  import opened Api
  import opened Rows
  import opened Store
  import Sse
  import M = Merge

  datatype Principal = Principal(subject: string, tenant: string, superAdmin: bool)

  /** What an audit entry is about; the two triage texts keep their parts. */
  datatype Subject = Plain(text: string) | Transition(findingId: string, prev: FindingState, next: FindingState)
                   | Until(findingId: string, expires: int)

  datatype AuditEntry = AuditEntry(at: int, subject: string, tenant: string, action: string, resource: Subject,
                                   result: string)

  type Audit = map<string, seq<AuditEntry>>

  function Entries(a: Audit, t: string): seq<AuditEntry> {
    if t in a then a[t] else []
  }

  function Written(a: Audit, e: AuditEntry): Audit {
    a[e.tenant := Entries(a, e.tenant) + [e]]
  }

  class MemAuditLog {
    var entries: Audit

    constructor ()
      ensures entries == map[]
    {
      entries := map[];
    }

    method Write(e: AuditEntry)
      modifies this
      ensures entries == Written(old(entries), e)
    {
      var es := if e.tenant in entries then entries[e.tenant] else [];
      entries := entries[e.tenant := es + [e]];
    }

    method List(tenant: string) returns (es: seq<AuditEntry>)
      ensures es == Entries(entries, tenant)
    {
      es := if tenant in entries then entries[tenant] else [];
    }

    method PurgeTenant(tenant: string)
      modifies this
      ensures entries == old(entries) - {tenant}
    {
      entries := entries - {tenant};
    }
  }

  datatype System = System(store: Store, audit: Audit)

  /** The digest of identities and the longest waiver allowed, in nanoseconds. */
  datatype Config = Config(digest: string -> string, maxWaiver: int)

  datatype Response = BadRequest | NotFound | Forbidden | Saved(row: Row) | Erased

  // ----- finding a row -----

  datatype Current = Current(clusterId: string, finding: Finding)

  function Tagged(clusterId: string): Finding -> seq<Current> {
    (f: Finding) => [Current(clusterId, f)]
  }

  /** The findings of one cluster's latest report. */
  function CurrentOf(s: Store, t: string): string -> seq<Current> {
    (clusterId: string) =>
      match GetReport(s, t, clusterId)
      case Some(rep) => FlatMap(Tagged(clusterId), rep.findings)
      case None => []
  }

  function IdOf(c: Cluster): seq<string> { [c.id] }

  function ClusterIds(s: Store, t: string): seq<string> {
    FlatMap(IdOf, ListClusters(s, t))
  }

  function Candidates(s: Store, t: string): seq<Current> {
    FlatMap(CurrentOf(s, t), ClusterIds(s, t))
  }

  /** The first current finding with the given key. */
  function FirstWithKey(digest: string -> string, cs: seq<Current>, key: string): Option<Current> {
    if cs == [] then None
    else if Key(digest, cs[0].clusterId, cs[0].finding) == key then Some(cs[0])
    else FirstWithKey(digest, cs[1..], key)
  }

  function OpenRow(key: string, c: Current, firstSeen: Option<int>): Row {
    Row(key, c.clusterId, c.finding.id, c.finding.resource, Open, "", None, firstSeen, None, None)
  }

  /** The stored row, or an open one made from a current finding. */
  function LoadOrInit(cfg: Config, s: Store, t: string, key: string, now: int): Option<Row> {
    match GetLifecycle(s, t, key)
    case Some(r) => Some(r)
    case None =>
      match FirstWithKey(cfg.digest, Candidates(s, t), key)
      case Some(c) => Some(OpenRow(key, c, Some(Stamp(now))))
      case None => None
  }

  lemma {:induction false} FirstWithKeyConcat(digest: string -> string, a: seq<Current>, b: seq<Current>, key: string)
    ensures FirstWithKey(digest, a + b, key) ==
      if FirstWithKey(digest, a, key).Some? then FirstWithKey(digest, a, key) else FirstWithKey(digest, b, key)
  {
    hide Key;
    if a == [] {
      assert a + b == b;
    } else {
      assert (a + b)[1..] == a[1..] + b;
      FirstWithKeyConcat(digest, a[1..], b, key);
    }
  }

  lemma {:induction false} FirstWithKeyFound(digest: string -> string, cs: seq<Current>, key: string)
    ensures match FirstWithKey(digest, cs, key)
      case Some(c) => c in cs && Key(digest, c.clusterId, c.finding) == key
      case None => forall c :: c in cs ==> Key(digest, c.clusterId, c.finding) != key
  {
    hide Key;
    if cs != [] {
      FirstWithKeyFound(digest, cs[1..], key);
      assert cs == [cs[0]] + cs[1..];
    }
  }

  // ----- the steps -----

  datatype TriageBody = TriageBody(state: string, assignee: string)

  datatype WaiverBody = WaiverBody(justification: string, expiresAt: Option<int>)

  /** The states an analyst may set directly; risk acceptance needs a waiver. */
  function TriageState(text: string): Option<FindingState> {
    if text == "open" then Some(Open)
    else if text == "acknowledged" then Some(Acknowledged)
    else if text == "in-progress" then Some(InProgress)
    else if text == "resolved" then Some(Resolved)
    else None
  }

  function Triaged(r: Row, state: FindingState, assignee: string, stamp: int): Row {
    r.(state := state, assignee := if assignee != "" then assignee else r.assignee, waiver := None,
       resolvedAt := if state == Resolved then Some(stamp) else None, lastUpdated := Some(stamp))
  }

  /** Readings: `t1` when an untracked row is made, `t2` when the row is stored. */
  function SetState(cfg: Config, sys: System, p: Principal, key: string, body: Option<TriageBody>, t1: int, t2: int)
    : (System, Response)
  {
    if body.None? then (sys, BadRequest)
    else if TriageState(body.value.state).None? then (sys, BadRequest)
    else
      match LoadOrInit(cfg, sys.store, p.tenant, key, t1)
      case None => (sys, NotFound)
      case Some(r) =>
        var state := TriageState(body.value.state).value;
        var row := Triaged(r, state, body.value.assignee, Stamp(t2));
        (System(UpsertLifecycle(sys.store, p.tenant, row),
                Written(sys.audit, AuditEntry(Stamp(t2), p.subject, p.tenant, "finding.triage",
                                              Transition(r.findingId, r.state, state), "allowed"))),
         Saved(row))
  }

  function Waived(r: Row, justification: string, approver: string, stamp: int, expires: int): Row {
    r.(state := RiskAccepted, resolvedAt := None,
       waiver := Some(Waiver(justification, approver, stamp, Some(expires))), lastUpdated := Some(stamp))
  }

  predicate WaiverAccepted(cfg: Config, body: Option<WaiverBody>, now: int) {
    && body.Some? && body.value.justification != "" && body.value.expiresAt.Some?
    && now < body.value.expiresAt.value <= now + cfg.maxWaiver
  }

  /** Readings: `t0` checks the expiry, `t1` makes an untracked row, `t2` stamps the waiver. */
  function CreateWaiver(cfg: Config, sys: System, p: Principal, key: string, body: Option<WaiverBody>,
                        t0: int, t1: int, t2: int): (System, Response)
  {
    if !WaiverAccepted(cfg, body, t0) then (sys, BadRequest)
    else
      match LoadOrInit(cfg, sys.store, p.tenant, key, t1)
      case None => (sys, NotFound)
      case Some(r) =>
        var expires := Stamp(body.value.expiresAt.value);
        var row := Waived(r, body.value.justification, p.subject, Stamp(t2), expires);
        (System(UpsertLifecycle(sys.store, p.tenant, row),
                Written(sys.audit, AuditEntry(Stamp(t2), p.subject, p.tenant, "finding.waiver",
                                              Until(r.findingId, expires), "allowed"))),
         Saved(row))
  }

  function Revoked(r: Row, stamp: int): Row {
    r.(state := Open, waiver := None, lastUpdated := Some(stamp))
  }

  function DeleteWaiver(sys: System, p: Principal, key: string, now: int): (System, Response) {
    match GetLifecycle(sys.store, p.tenant, key)
    case None => (sys, NotFound)
    case Some(r) =>
      if r.waiver.None? then (sys, NotFound)
      else
        var row := Revoked(r, Stamp(now));
        (System(UpsertLifecycle(sys.store, p.tenant, row),
                Written(sys.audit, AuditEntry(Stamp(now), p.subject, p.tenant, "finding.waiver.revoke",
                                              Plain(r.findingId), "allowed"))),
         Saved(row))
  }

  /** `validId` says whether the target is a well-formed tenant id. */
  function EraseTenant(sys: System, p: Principal, target: string, validId: bool, now: int): (System, Response) {
    var entry := AuditEntry(Stamp(now), p.subject, p.tenant, "tenant.delete", Plain(target), "allowed");
    if target == "" || !validId then (sys, BadRequest)
    else if target != p.tenant && !p.superAdmin then
      (sys.(audit := Written(sys.audit, entry.(result := "denied"))), Forbidden)
    else (System(DeleteTenant(sys.store, target), Written(sys.audit, entry) - {target}), Erased)
  }

  /** A finished scan: recorded, seeded and audited; a failed one is only audited. */
  function FinishScan(cfg: Config, sys: System, t: string, clusterId: string, subject: string, scanId: string,
                      outcome: Result<Report>, t1: int, t2: int, t3: int): System
  {
    var entry := AuditEntry(Stamp(t3), subject, t, "scan.trigger", Plain(clusterId), "failed");
    match outcome
    case Err => sys.(audit := Written(sys.audit, entry))
    case Ok(rep) =>
      var recorded := RecordScan(sys.store, t, clusterId, scanId, rep, Stamp(t1));
      System(SeedFindings(cfg.digest, recorded, t, clusterId, rep.findings, Stamp(t2)),
             Written(sys.audit, entry.(result := "allowed")))
  }

  function AddCluster(sys: System, p: Principal, c: Cluster, now: int): System {
    System(RegisterCluster(sys.store, p.tenant, c),
           Written(sys.audit, AuditEntry(Stamp(now), p.subject, p.tenant, "cluster.write", Plain(c.id), "allowed")))
  }

  function DropClusterStep(sys: System, p: Principal, id: string, now: int): System {
    if !DeleteCluster(sys.store, p.tenant, id).1 then sys
    else System(DeleteCluster(sys.store, p.tenant, id).0,
                Written(sys.audit, AuditEntry(Stamp(now), p.subject, p.tenant, "cluster.delete", Plain(id), "allowed")))
  }

  /** What a scan publishes to its tenant's subscribers, in order. */
  function ScanEvents(clusterId: string, scanId: string, ok: bool): seq<Sse.Event> {
    [Sse.Event("scan_started", clusterId, scanId, "", ""), Sse.Event("scan_progress", clusterId, scanId, "0.5", "")]
    + if ok
      then [Sse.Event("scan_completed", clusterId, scanId, "1", ""),
            Sse.Event("posture_updated", clusterId, "", "", "")]
      else [Sse.Event("scan_completed", clusterId, scanId, "", "failed")]
  }

  /** Every published event has a kind the client's schema knows, so the stream delivers it. */
  lemma ScanEventsKnown(clusterId: string, scanId: string, ok: bool)
    ensures Sse.AllKnown(ScanEvents(clusterId, scanId, ok))
  {
  }

  // ----- what the steps answer -----

  /** The wire name of a state. */
  function StateName(state: FindingState): string {
    match state
    case Open => "open"
    case Acknowledged => "acknowledged"
    case InProgress => "in-progress"
    case Resolved => "resolved"
    case RiskAccepted => "risk-accepted"
  }

  /** A row keeps which finding it is about and when it was first seen. */
  ghost predicate SameIdentity(a: Row, b: Row) {
    && a.key == b.key && a.clusterId == b.clusterId && a.findingId == b.findingId && a.resource == b.resource
    && a.firstSeen == b.firstSeen
  }

  /** The log of one tenant grew by `e`, and nothing else in the log changed. */
  ghost predicate Logged(a: Audit, a': Audit, t: string, e: AuditEntry) {
    && e.tenant == t && Entries(a', t) == Entries(a, t) + [e]
    && forall u :: u != t ==> Entries(a', u) == Entries(a, u)
  }

  /** Triage accepts the four names other than risk-accepted, and stores the state of that very name. */
  lemma TriageStoresItsName(cfg: Config, sys: System, p: Principal, key: string, body: TriageBody, t1: int, t2: int)
    ensures var (sys', resp) := SetState(cfg, sys, p, key, Some(body), t1, t2);
      var loaded := LoadOrInit(cfg, sys.store, p.tenant, key, t1);
      && (resp == BadRequest <==> body.state !in ["open", "acknowledged", "in-progress", "resolved"])
      && (resp == NotFound <==> resp != BadRequest && loaded == None)
      && (resp.Saved? <==> resp != BadRequest && loaded.Some?)
      && (!resp.Saved? ==> sys' == sys)
      && (resp.Saved? ==>
            var r, row := loaded.value, resp.row;
            && SameIdentity(r, row) && StateName(row.state) == body.state && row.waiver == None
            && row.assignee == (if body.assignee == "" then r.assignee else body.assignee)
            && row.resolvedAt == (if body.state == "resolved" then Some(Stamp(t2)) else None)
            && row.lastUpdated == Some(Stamp(t2)) && sys'.store == UpsertLifecycle(sys.store, p.tenant, row)
            && exists e :: Logged(sys.audit, sys'.audit, p.tenant, e) && e.at == Stamp(t2) && e.subject == p.subject
                 && e.action == "finding.triage" && e.result == "allowed"
                 && e.resource == Transition(r.findingId, r.state, row.state))
  {
    hide LoadOrInit, Stamp;
    var (sys', resp) := SetState(cfg, sys, p, key, Some(body), t1, t2);
    if resp.Saved? {
      var r := LoadOrInit(cfg, sys.store, p.tenant, key, t1).value;
      var e := AuditEntry(Stamp(t2), p.subject, p.tenant, "finding.triage",
                          Transition(r.findingId, r.state, resp.row.state), "allowed");
      assert Logged(sys.audit, sys'.audit, p.tenant, e);
    }
  }

  /**
   * A waiver is stored exactly for a text, an end after now and within the maximum, and a known
   * finding; it carries that text, the actor, the current second and that end.
   */
  lemma WaiverIsAsAsked(cfg: Config, sys: System, p: Principal, key: string, body: WaiverBody,
                        t0: int, t1: int, t2: int)
    ensures var (sys', resp) := CreateWaiver(cfg, sys, p, key, Some(body), t0, t1, t2);
      var loaded := LoadOrInit(cfg, sys.store, p.tenant, key, t1);
      && (resp == BadRequest <==> body.justification == "" || body.expiresAt == None || body.expiresAt.value <= t0
                                  || body.expiresAt.value - t0 > cfg.maxWaiver)
      && (resp == NotFound <==> resp != BadRequest && loaded == None)
      && (resp.Saved? <==> resp != BadRequest && loaded.Some?)
      && (!resp.Saved? ==> sys' == sys)
      && (resp.Saved? ==>
            var r, row := loaded.value, resp.row;
            && SameIdentity(r, row) && row.state == RiskAccepted && row.assignee == r.assignee
            && row.resolvedAt == None && row.lastUpdated == Some(Stamp(t2)) && row.waiver.Some?
            && row.waiver.value.justification == body.justification && row.waiver.value.approvedBy == p.subject
            && row.waiver.value.createdAt == Stamp(t2)
            && row.waiver.value.expiresAt == Some(Stamp(body.expiresAt.value))
            && sys'.store == UpsertLifecycle(sys.store, p.tenant, row)
            && exists e :: Logged(sys.audit, sys'.audit, p.tenant, e) && e.at == Stamp(t2) && e.subject == p.subject
                 && e.action == "finding.waiver" && e.result == "allowed"
                 && e.resource == Until(r.findingId, Stamp(body.expiresAt.value)))
  {
    hide LoadOrInit, Stamp;
    var (sys', resp) := CreateWaiver(cfg, sys, p, key, Some(body), t0, t1, t2);
    if resp.Saved? {
      var e := AuditEntry(Stamp(t2), p.subject, p.tenant, "finding.waiver",
                          Until(resp.row.findingId, Stamp(body.expiresAt.value)), "allowed");
      assert Logged(sys.audit, sys'.audit, p.tenant, e);
    }
  }

  /** A revocation reopens a row that had a waiver, and nothing else. */
  lemma RevocationReopens(sys: System, p: Principal, key: string, now: int)
    ensures var (sys', resp) := DeleteWaiver(sys, p, key, now);
      var before := GetLifecycle(sys.store, p.tenant, key);
      && (resp.Saved? <==> before.Some? && before.value.waiver.Some?)
      && (!resp.Saved? ==> resp == NotFound && sys' == sys)
      && (resp.Saved? ==>
            && SameIdentity(before.value, resp.row) && resp.row.state == Open && resp.row.waiver == None
            && resp.row.assignee == before.value.assignee && resp.row.lastUpdated == Some(Stamp(now))
            && sys'.store == UpsertLifecycle(sys.store, p.tenant, resp.row)
            && exists e :: Logged(sys.audit, sys'.audit, p.tenant, e) && e.at == Stamp(now) && e.subject == p.subject
                 && e.action == "finding.waiver.revoke" && e.resource == Plain(before.value.findingId))
  {
    hide Stamp;
    var (sys', resp) := DeleteWaiver(sys, p, key, now);
    if resp.Saved? {
      var e := AuditEntry(Stamp(now), p.subject, p.tenant, "finding.waiver.revoke", Plain(resp.row.findingId),
                          "allowed");
      assert Logged(sys.audit, sys'.audit, p.tenant, e);
    }
  }

  /** Cluster changes are logged under the actor's tenant; deleting an unknown cluster changes nothing. */
  lemma ClusterChangesLogged(sys: System, p: Principal, c: Cluster, now: int)
    ensures exists e :: (Logged(sys.audit, AddCluster(sys, p, c, now).audit, p.tenant, e)
                         && e.action == "cluster.write" && e.resource == Plain(c.id) && e.subject == p.subject)
    ensures var sys' := DropClusterStep(sys, p, c.id, now);
      if GetCluster(sys.store, p.tenant, c.id).None? then sys' == sys
      else GetCluster(sys'.store, p.tenant, c.id).None?
           && exists e :: Logged(sys.audit, sys'.audit, p.tenant, e)
                && e.action == "cluster.delete" && e.resource == Plain(c.id) && e.subject == p.subject
  {
    hide Without, Registered;
    var e := AuditEntry(Stamp(now), p.subject, p.tenant, "cluster.write", Plain(c.id), "allowed");
    assert Logged(sys.audit, AddCluster(sys, p, c, now).audit, p.tenant, e);
    if GetCluster(sys.store, p.tenant, c.id).Some? {
      var d := AuditEntry(Stamp(now), p.subject, p.tenant, "cluster.delete", Plain(c.id), "allowed");
      assert Logged(sys.audit, DropClusterStep(sys, p, c.id, now).audit, p.tenant, d);
    }
  }

  /** Erasing another tenant without being super-admin is denied, changes no data and leaves one denied entry. */
  lemma ErasureDenied(sys: System, p: Principal, target: string, now: int)
    requires target != "" && target != p.tenant && !p.superAdmin
    ensures var (sys', resp) := EraseTenant(sys, p, target, true, now);
      && resp == Forbidden && sys'.store == sys.store
      && (forall t :: t != p.tenant ==> Entries(sys'.audit, t) == Entries(sys.audit, t))
      && |Entries(sys'.audit, p.tenant)| == |Entries(sys.audit, p.tenant)| + 1
      && Entries(sys.audit, p.tenant) <= Entries(sys'.audit, p.tenant)
      && var e := Entries(sys'.audit, p.tenant)[|Entries(sys.audit, p.tenant)|];
         e.subject == p.subject && e.action == "tenant.delete" && e.resource == Plain(target) && e.result == "denied"
  {
  }

  /** A failed scan stores nothing; a scan leaves one entry that says whether it succeeded. */
  lemma ScanIsAudited(cfg: Config, sys: System, t: string, clusterId: string, subject: string, scanId: string,
                      outcome: Result<Report>, t1: int, t2: int, t3: int)
    ensures var sys' := FinishScan(cfg, sys, t, clusterId, subject, scanId, outcome, t1, t2, t3);
      && (outcome.Err? ==> sys'.store == sys.store)
      && (outcome.Ok? ==> GetReport(sys'.store, t, clusterId).Some?)
      && exists e: AuditEntry :: Entries(sys'.audit, t) == Entries(sys.audit, t) + [e] && e.action == "scan.trigger"
           && e.subject == subject && e.resource == Plain(clusterId)
           && e.result == if outcome.Ok? then "allowed" else "failed"
  {
    hide Seeded, PostureControls, M.Merged;
    var sys' := FinishScan(cfg, sys, t, clusterId, subject, scanId, outcome, t1, t2, t3);
    var e := AuditEntry(Stamp(t3), subject, t, "scan.trigger", Plain(clusterId),
                        if outcome.Ok? then "allowed" else "failed");
    assert Entries(sys'.audit, t) == Entries(sys.audit, t) + [e];
  }

  // ----- the handlers -----

  class API {
    const store: MemStore
    const audit: MemAuditLog
    const cfg: Config

    constructor (cfg: Config)
      ensures fresh(store) && fresh(audit) && this.cfg == cfg
      ensures State() == System(EMPTY_STORE, map[]) && store.Valid()
    {
      this.cfg := cfg;
      store := new MemStore();
      audit := new MemAuditLog();
    }

    ghost function State(): System
      reads store, audit
    {
      System(store.State(), audit.entries)
    }

    method LoadOrInitLifecycle(tenant: string, key: string, now: int) returns (r: Option<Row>)
      requires store.Valid()
      ensures r == LoadOrInit(cfg, store.State(), tenant, key, now)
    {
      hide GetReport, ListClusters, FlatMap, Key, FirstWithKey;
      r := store.Get(tenant, key);
      if r.Some? {
        return;
      }
      var clusters := store.Clusters(tenant);
      ghost var s := store.State();
      ghost var ids := FlatMap(IdOf, clusters);
      FlatMapEnds(IdOf, clusters);
      ghost var seen: seq<Current> := [];
      FlatMapEnds(CurrentOf(s, tenant), ids[..0]);
      NoneSeen(cfg.digest, key);
      assert FlatMap(CurrentOf(s, tenant), []) == [] by { FlatMapEnds(CurrentOf(s, tenant), ids); }
      for i := 0 to |clusters|
        invariant seen == FlatMap(CurrentOf(s, tenant), FlatMap(IdOf, clusters[..i]))
        invariant FirstWithKey(cfg.digest, seen, key).None?
      {
        FlatMapStep(IdOf, clusters, i);
        var id := clusters[i].id;
        FlatMapConcat(CurrentOf(s, tenant), FlatMap(IdOf, clusters[..i]), [id]);
        FlatMapSingle(CurrentOf(s, tenant), id);
        var rep := store.LatestReport(tenant, id);
        if rep.None? {
          assert seen + CurrentOf(s, tenant)(id) == seen;
          continue;
        }
        var hit := FindInReport(cfg.digest, id, rep.value.findings, key);
        FirstWithKeyConcat(cfg.digest, seen, CurrentOf(s, tenant)(id), key);
        seen := seen + CurrentOf(s, tenant)(id);
        if hit.Some? {
          CandidatesSplit(s, tenant, clusters, i + 1);
          FirstWithKeyConcat(cfg.digest, seen, FlatMap(CurrentOf(s, tenant), FlatMap(IdOf, clusters[i + 1..])), key);
          return Some(OpenRow(key, hit.value, Some(Stamp(now))));
        }
      }
      assert clusters[..|clusters|] == clusters;
      return None;
    }

    method HandleSetState(p: Principal, key: string, body: Option<TriageBody>, t1: int, t2: int)
      returns (resp: Response)
      requires store.Valid()
      modifies store, audit
      ensures (State(), resp) == SetState(cfg, old(State()), p, key, body, t1, t2)
      ensures store.Valid()
    {
      hide LoadOrInit, ValidStore, Written;
      if body.None? {
        return BadRequest;
      }
      var state := TriageState(body.value.state);
      if state.None? {
        return BadRequest;
      }
      var loaded := LoadOrInitLifecycle(p.tenant, key, t1);
      if loaded.None? {
        return NotFound;
      }
      var lc := loaded.value;
      var now := Stamp(t2);
      var prev := lc.state;
      lc := lc.(state := state.value);
      if body.value.assignee != "" {
        lc := lc.(assignee := body.value.assignee);
      }
      lc := lc.(waiver := None);
      if state.value == Resolved {
        lc := lc.(resolvedAt := Some(now));
      } else {
        lc := lc.(resolvedAt := None);
      }
      lc := lc.(lastUpdated := Some(now));
      store.Upsert(p.tenant, lc);
      audit.Write(AuditEntry(now, p.subject, p.tenant, "finding.triage",
                             Transition(lc.findingId, prev, state.value), "allowed"));
      return Saved(lc);
    }

    method HandleCreateWaiver(p: Principal, key: string, body: Option<WaiverBody>, t0: int, t1: int, t2: int)
      returns (resp: Response)
      requires store.Valid()
      modifies store, audit
      ensures (State(), resp) == CreateWaiver(cfg, old(State()), p, key, body, t0, t1, t2)
      ensures store.Valid()
    {
      hide LoadOrInit, ValidStore, Written;
      if body.None? {
        return BadRequest;
      }
      if body.value.justification == "" {
        return BadRequest;
      }
      if body.value.expiresAt.None? {
        return BadRequest;
      }
      var exp := body.value.expiresAt.value;
      if !(exp > t0) {
        return BadRequest;
      }
      if exp > t0 + cfg.maxWaiver {
        return BadRequest;
      }
      var loaded := LoadOrInitLifecycle(p.tenant, key, t1);
      if loaded.None? {
        return NotFound;
      }
      var lc := loaded.value;
      var nowStr := Stamp(t2);
      lc := lc.(state := RiskAccepted, resolvedAt := None);
      lc := lc.(waiver := Some(Waiver(body.value.justification, p.subject, nowStr, Some(Stamp(exp)))));
      lc := lc.(lastUpdated := Some(nowStr));
      store.Upsert(p.tenant, lc);
      audit.Write(AuditEntry(nowStr, p.subject, p.tenant, "finding.waiver", Until(lc.findingId, Stamp(exp)),
        "allowed"));
      return Saved(lc);
    }

    method HandleDeleteWaiver(p: Principal, key: string, now: int) returns (resp: Response)
      requires store.Valid()
      modifies store, audit
      ensures (State(), resp) == DeleteWaiver(old(State()), p, key, now)
      ensures store.Valid()
    {
      hide ValidStore, Written;
      var loaded := store.Get(p.tenant, key);
      if loaded.None? || loaded.value.waiver.None? {
        return NotFound;
      }
      var lc := loaded.value.(state := Open, waiver := None, lastUpdated := Some(Stamp(now)));
      store.Upsert(p.tenant, lc);
      audit.Write(AuditEntry(Stamp(now), p.subject, p.tenant, "finding.waiver.revoke", Plain(lc.findingId), "allowed"));
      return Saved(lc);
    }

    /** The audit entry is written first, under the caller's tenant, and the target's log purged last. */
    method HandleDeleteTenant(p: Principal, target: string, validId: bool, now: int) returns (resp: Response)
      requires store.Valid()
      modifies store, audit
      ensures (State(), resp) == EraseTenant(old(State()), p, target, validId, now)
      ensures target != "" && validId && target != p.tenant && !p.superAdmin ==>
        && resp == Forbidden && store.State() == old(store.State())
        && exists e: AuditEntry ::
             e.result == "denied" && e.tenant == p.tenant && audit.entries == Written(old(audit.entries), e)
      ensures resp == Erased <==> target != "" && validId && (target == p.tenant || p.superAdmin)
      ensures store.Valid()
    {
      hide ValidStore;
      if target == "" || !validId {
        return BadRequest;
      }
      if target != p.tenant && !p.superAdmin {
        ghost var e := AuditEntry(Stamp(now), p.subject, p.tenant, "tenant.delete", Plain(target), "denied");
        audit.Write(AuditEntry(Stamp(now), p.subject, p.tenant, "tenant.delete", Plain(target), "denied"));
        assert e.result == "denied" && audit.entries == Written(old(audit.entries), e);
        return Forbidden;
      }
      audit.Write(AuditEntry(Stamp(now), p.subject, p.tenant, "tenant.delete", Plain(target), "allowed"));
      store.Erase(target);
      audit.PurgeTenant(target);
      return Erased;
    }

    /** Runs the scanner with bounded retries and persists the result. */
    method RunScan(tenant: string, clusterId: string, subject: string, scanId: string,
                   attempt: nat -> Result<Report>, cancelled: nat -> bool, t1: int, t2: int, t3: int)
      returns (scan: Scan, events: seq<Sse.Event>, tries: nat)
      requires store.Valid()
      modifies store, audit
      ensures 1 <= tries <= 3
      ensures State() == FinishScan(cfg, old(State()), tenant, clusterId, subject, scanId,
                                    ScannerOutcome(attempt, cancelled), t1, t2, t3)
      ensures scan.status == (if ScannerOutcome(attempt, cancelled).Ok? then Succeeded else Failed)
      ensures events == ScanEvents(clusterId, scanId, ScannerOutcome(attempt, cancelled).Ok?)
      ensures store.Valid()
    {
      hide ValidStore, Written, SeedFindings, RecordScan;
      events := [Sse.Event("scan_started", clusterId, scanId, "", "")];
      events := events + [Sse.Event("scan_progress", clusterId, scanId, "0.5", "")];
      var outcome: Result<Report>;
      outcome, tries := RunScanner(attempt, cancelled);
      if outcome.Err? {
        events := events + [Sse.Event("scan_completed", clusterId, scanId, "", "failed")];
        audit.Write(AuditEntry(Stamp(t3), subject, tenant, "scan.trigger", Plain(clusterId), "failed"));
        return Scan(scanId, clusterId, Failed, None, None, 0), events, tries;
      }
      var rep := outcome.value;
      scan := store.Record(tenant, clusterId, scanId, rep, Stamp(t1));
      store.Seed(cfg.digest, tenant, clusterId, rep.findings, Stamp(t2));
      audit.Write(AuditEntry(Stamp(t3), subject, tenant, "scan.trigger", Plain(clusterId), "allowed"));
      events := events + [Sse.Event("scan_completed", clusterId, scanId, "1", "")];
      events := events + [Sse.Event("posture_updated", clusterId, "", "", "")];
    }
  }

  lemma NoneSeen(digest: string -> string, key: string)
    ensures FirstWithKey(digest, [], key).None?
  {
  }

  lemma CandidatesSplit(s: Store, t: string, clusters: seq<Cluster>, i: nat)
    requires i <= |clusters| && clusters == ListClusters(s, t)
    ensures Candidates(s, t) == FlatMap(CurrentOf(s, t), FlatMap(IdOf, clusters[..i]))
                                + FlatMap(CurrentOf(s, t), FlatMap(IdOf, clusters[i..]))
  {
    hide GetReport, ListClusters, FlatMap;
    assert clusters == clusters[..i] + clusters[i..];
    FlatMapConcat(IdOf, clusters[..i], clusters[i..]);
    FlatMapConcat(CurrentOf(s, t), FlatMap(IdOf, clusters[..i]), FlatMap(IdOf, clusters[i..]));
  }

  method FindInReport(digest: string -> string, clusterId: string, findings: seq<Finding>, key: string)
    returns (hit: Option<Current>)
    ensures hit == FirstWithKey(digest, FlatMap(Tagged(clusterId), findings), key)
  {
    hide FlatMap, Key;
    FlatMapEnds(Tagged(clusterId), findings);
    for i := 0 to |findings|
      invariant FirstWithKey(digest, FlatMap(Tagged(clusterId), findings[..i]), key).None?
    {
      assert findings == findings[..i] + findings[i..] && findings[i..] == [findings[i]] + findings[i + 1..];
      FlatMapConcat(Tagged(clusterId), findings[..i], findings[i..]);
      FlatMapConcat(Tagged(clusterId), [findings[i]], findings[i + 1..]);
      FlatMapSingle(Tagged(clusterId), findings[i]);
      FlatMapStep(Tagged(clusterId), findings, i);
      var c := Current(clusterId, findings[i]);
      FirstWithKeyConcat(digest, FlatMap(Tagged(clusterId), findings[..i]),
        FlatMap(Tagged(clusterId), findings[i..]), key);
      FirstWithKeyConcat(digest, FlatMap(Tagged(clusterId), findings[..i]), [c], key);
      if Key(digest, clusterId, findings[i]) == key {
        return Some(c);
      }
    }
    return None;
  }

  // ----- the scanner's retries -----

  /** Up to three attempts; a cancelled context stops the retries. */
  function ScannerOutcome(attempt: nat -> Result<Report>, cancelled: nat -> bool): Result<Report> {
    if attempt(0).Ok? then attempt(0)
    else if cancelled(0) then Err
    else if attempt(1).Ok? then attempt(1)
    else if cancelled(1) then Err
    else attempt(2)
  }

  method RunScanner(attempt: nat -> Result<Report>, cancelled: nat -> bool) returns (r: Result<Report>, tries: nat)
    ensures r == ScannerOutcome(attempt, cancelled)
    ensures 1 <= tries <= 3
    ensures r.Ok? ==> r == attempt(tries - 1) && forall i :: 0 <= i < tries - 1 ==> attempt(i).Err?
    ensures r.Err? ==> forall i :: 0 <= i < tries ==> attempt(i).Err?
    ensures r.Err? ==> tries == 3 || cancelled(tries - 1)
  {
    tries := 0;
    while tries < 3
      invariant tries <= 3
      invariant forall i :: 0 <= i < tries ==> attempt(i).Err? && !cancelled(i)
    {
      r := attempt(tries);
      tries := tries + 1;
      if r.Ok? {
        return;
      }
      if cancelled(tries - 1) {
        return Err, tries;
      }
    }
    r := Err;
  }

  /** A scan starts and completes exactly once, in that order; the posture update follows success only. */
  lemma ScanEventsMeaning(clusterId: string, scanId: string, ok: bool)
    ensures var es := ScanEvents(clusterId, scanId, ok);
      && es[0].kind == "scan_started" && |es| == (if ok then 4 else 3)
      && (forall i :: 0 <= i < |es| ==> es[i].clusterId == clusterId)
      && (forall i :: 0 <= i < 3 ==> es[i].scanId == scanId)
      && (forall i :: 0 <= i < |es| ==> (es[i].kind == "scan_completed" <==> i == 2))
      && (es[2].message == "failed" <==> !ok)
      && ((exists e :: e in es && e.kind == "posture_updated") <==> ok)
  {
    var es := ScanEvents(clusterId, scanId, ok);
    assert es[1].kind == "scan_progress" && es[2].kind == "scan_completed";
    assert "scan_started"[5] == 's' && "scan_progress"[5] == 'p' && "scan_completed"[5] == 'c';
    assert ok ==> es[3].kind == "posture_updated" && es[3] in es;
    assert "posture_updated"[0] == 'p' && "scan_completed"[0] == 's' && "scan_started"[0] == 's';
    assert "scan_progress"[0] == 's';
  }

  /** An untracked finding starts as an open, unassigned row seen now; a tracked one is loaded as stored. */
  lemma LoadedMeaning(cfg: Config, s: Store, t: string, key: string, now: int)
    ensures var r := LoadOrInit(cfg, s, t, key, now);
      if GetLifecycle(s, t, key).Some? then r == GetLifecycle(s, t, key)
      else
        && (r.Some? <==> exists c :: c in Candidates(s, t) && Key(cfg.digest, c.clusterId, c.finding) == key)
        && (r.Some? ==>
              && r.value.key == key && r.value.state == Open && r.value.assignee == "" && r.value.waiver == None
              && r.value.firstSeen == Some(Stamp(now)) && r.value.resolvedAt == None
              && exists c :: c in Candidates(s, t) && Key(cfg.digest, c.clusterId, c.finding) == key
                   && r.value.clusterId == c.clusterId && r.value.findingId == c.finding.id
                   && r.value.resource == c.finding.resource)
  {
    hide Candidates, Key, Stamp;
    FirstWithKeyFound(cfg.digest, Candidates(s, t), key);
  }
}
