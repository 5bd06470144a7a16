/**
 * The row-writing handlers split at their store and audit calls, which take separate locks: get
 * the row, or list the clusters and search their reports one by one; store the new row; write the
 * audit entry. An erasure is split into its audit entry, the deletion and the purge of the log.
 * Any number of them interleave with each other and with single store calls and log writes of
 * scans and cluster changes.
 */
module Interleaving {
  import opened Common
  import opened Api
  import opened Rows
  import opened Store
  import opened Dashboard
  import I = Isolation
  import L = LifecycleRuns

  /** What a handler is about to do after loading: store a row, then write an entry. */
  datatype Plan = Plan(tenant: string, row: Row, entry: AuditEntry)

  datatype Job =
    | Missed(handler: L.Step)
    | Searching(handler: L.Step, ids: seq<string>)
    | Loaded(plan: Plan)
    | RowStored(plan: Plan)
    | Erasing(target: string)
    | Purging(target: string)

  datatype State = State(sys: System, jobs: map<nat, Job>)

  datatype Step =
    | Get(h: nat, handler: L.Step)
    | ListIds(h: nat)
    | Probe(h: nat)
    | StoreRow(h: nat)
    | LogEntry(h: nat)
    | BeginErase(h: nat, p: Principal, target: string, validId: bool, now: int)
    | EraseStore(h: nat)
    | Purge(h: nat)
    | Call(t: string, call: I.Call)
    | Log(entry: AuditEntry)

  predicate WritesRow(handler: L.Step) {
    handler.Triage? || handler.Waive? || handler.Revoke?
  }

  /** The plan a handler forms from the row it loaded; none when it refuses. */
  function PlanWith(cfg: Config, handler: L.Step, r: Row): Option<Plan> {
    match handler
    case Triage(p, _, body, _, t2) =>
      if body.None? || TriageState(body.value.state).None? then None
      else
        var state := TriageState(body.value.state).value;
        Some(Plan(p.tenant, Triaged(r, state, body.value.assignee, Stamp(t2)),
                  AuditEntry(Stamp(t2), p.subject, p.tenant, "finding.triage",
                             Transition(r.findingId, r.state, state), "allowed")))
    case Waive(p, _, body, t0, _, t2) =>
      if !WaiverAccepted(cfg, body, t0) then None
      else
        var expires := Stamp(body.value.expiresAt.value);
        Some(Plan(p.tenant, Waived(r, body.value.justification, p.subject, Stamp(t2), expires),
                  AuditEntry(Stamp(t2), p.subject, p.tenant, "finding.waiver", Until(r.findingId, expires), "allowed")))
    case Revoke(p, _, now) =>
      if r.waiver.None? then None
      else Some(Plan(p.tenant, Revoked(r, Stamp(now)),
                     AuditEntry(Stamp(now), p.subject, p.tenant, "finding.waiver.revoke", Plain(r.findingId),
                                "allowed")))
    case _ => None
  }

  /** The reading that stamps a row made for an untracked finding. */
  function SeenAt(handler: L.Step): int {
    match handler
    case Triage(_, _, _, t1, _) => t1
    case Waive(_, _, _, _, t1, _) => t1
    case _ => 0
  }

  predicate IsCall(call: I.Call) {
    call.CallRegister? || call.CallDeleteCluster? || call.CallRecordScan? || call.CallProvision? || call.CallSeed?
  }

  predicate Enabled(s: State, step: Step) {
    match step
    case Get(h, handler) => h !in s.jobs && WritesRow(handler)
    case ListIds(h) => h in s.jobs && s.jobs[h].Missed? && WritesRow(s.jobs[h].handler)
    case Probe(h) => h in s.jobs && s.jobs[h].Searching? && WritesRow(s.jobs[h].handler)
    case StoreRow(h) => h in s.jobs && s.jobs[h].Loaded?
    case LogEntry(h) => h in s.jobs && s.jobs[h].RowStored?
    case BeginErase(h, _, _, _, _) => h !in s.jobs
    case EraseStore(h) => h in s.jobs && s.jobs[h].Erasing?
    case Purge(h) => h in s.jobs && s.jobs[h].Purging?
    case Call(_, call) => IsCall(call)
    case Log(entry) => entry.action != "finding.waiver"
  }

  /** The finding with the handler's key in one cluster's latest report. */
  function HitIn(cfg: Config, s: Store, t: string, id: string, key: string): Option<Current> {
    FirstWithKey(cfg.digest, CurrentOf(s, t)(id), key)
  }

  /** A handler that has its row goes on with its plan, or ends. */
  function WithRow(cfg: Config, s: State, h: nat, handler: L.Step, r: Row): State {
    match PlanWith(cfg, handler, r)
    case Some(plan) => s.(jobs := s.jobs[h := Loaded(plan)])
    case None => s.(jobs := s.jobs - {h})
  }

  function Apply(cfg: Config, s: State, step: Step): State
    requires Enabled(s, step)
  {
    match step
    case Get(h, handler) =>
      (match GetLifecycle(s.sys.store, handler.p.tenant, handler.key)
       case Some(r) => WithRow(cfg, s, h, handler, r)
       case None => if handler.Revoke? then s else s.(jobs := s.jobs[h := Missed(handler)]))
    case ListIds(h) =>
      var handler := s.jobs[h].handler;
      s.(jobs := s.jobs[h := Searching(handler, ClusterIds(s.sys.store, handler.p.tenant))])
    case Probe(h) =>
      var handler, ids := s.jobs[h].handler, s.jobs[h].ids;
      if ids == [] then s.(jobs := s.jobs - {h})
      else
        (match HitIn(cfg, s.sys.store, handler.p.tenant, ids[0], handler.key)
         case Some(c) => WithRow(cfg, s, h, handler, OpenRow(handler.key, c, Some(Stamp(SeenAt(handler)))))
         case None => s.(jobs := s.jobs[h := Searching(handler, ids[1..])]))
    case StoreRow(h) =>
      var plan := s.jobs[h].plan;
      State(s.sys.(store := UpsertLifecycle(s.sys.store, plan.tenant, plan.row)), s.jobs[h := RowStored(plan)])
    case LogEntry(h) =>
      State(s.sys.(audit := Written(s.sys.audit, s.jobs[h].plan.entry)), s.jobs - {h})
    case BeginErase(h, p, target, validId, now) =>
      var entry := AuditEntry(Stamp(now), p.subject, p.tenant, "tenant.delete", Plain(target), "allowed");
      if target == "" || !validId then s
      else if target != p.tenant && !p.superAdmin
      then s.(sys := s.sys.(audit := Written(s.sys.audit, entry.(result := "denied"))))
      else State(s.sys.(audit := Written(s.sys.audit, entry)), s.jobs[h := Erasing(target)])
    case EraseStore(h) =>
      State(s.sys.(store := DeleteTenant(s.sys.store, s.jobs[h].target)), s.jobs[h := Purging(s.jobs[h].target)])
    case Purge(h) =>
      State(s.sys.(audit := s.sys.audit - {s.jobs[h].target}), s.jobs - {h})
    case Call(t, call) => s.(sys := s.sys.(store := I.After(cfg.digest, s.sys.store, t, call)))
    case Log(entry) => s.(sys := s.sys.(audit := Written(s.sys.audit, entry)))
  }

  // ----- without interleaving, the steps are the atomic handler -----

  function LoadedBy(cfg: Config, s: Store, handler: L.Step): Option<Row>
    requires WritesRow(handler)
  {
    if handler.Revoke? then GetLifecycle(s, handler.p.tenant, handler.key)
    else LoadOrInit(cfg, s, handler.p.tenant, handler.key, SeenAt(handler))
  }

  function Done(sys: System, plan: Plan): System {
    System(UpsertLifecycle(sys.store, plan.tenant, plan.row), Written(sys.audit, plan.entry))
  }

  /** Loading, storing and logging in one go is the atomic handler. */
  lemma AtomicHandler(cfg: Config, sys: System, handler: L.Step)
    requires WritesRow(handler)
    ensures var r := LoadedBy(cfg, sys.store, handler);
      L.Apply(cfg, sys, handler) ==
        if r.Some? && PlanWith(cfg, handler, r.value).Some? then Done(sys, PlanWith(cfg, handler, r.value).value)
        else sys
  {
    hide LoadOrInit, TriageState, WaiverAccepted, Stamp;
  }

  /** The search cluster by cluster, in a store that does not change meanwhile. */
  function Search(cfg: Config, s: Store, t: string, ids: seq<string>, key: string): Option<Current> {
    if ids == [] then None
    else match HitIn(cfg, s, t, ids[0], key)
         case Some(c) => Some(c)
         case None => Search(cfg, s, t, ids[1..], key)
  }

  /** Probing every cluster in turn finds what the search over all current findings finds. */
  lemma {:induction false} UndisturbedSearch(cfg: Config, s: Store, t: string, ids: seq<string>, key: string)
    ensures Search(cfg, s, t, ids, key) == FirstWithKey(cfg.digest, FlatMap(CurrentOf(s, t), ids), key)
  {
    hide FirstWithKey, FlatMap, GetReport;
    if ids == [] {
      FlatMapEnds(CurrentOf(s, t), ids);
      NoneSeen(cfg.digest, key);
    } else {
      assert ids == [ids[0]] + ids[1..];
      FlatMapConcat(CurrentOf(s, t), [ids[0]], ids[1..]);
      FlatMapSingle(CurrentOf(s, t), ids[0]);
      FirstWithKeyConcat(cfg.digest, CurrentOf(s, t)(ids[0]), FlatMap(CurrentOf(s, t), ids[1..]), key);
      UndisturbedSearch(cfg, s, t, ids[1..], key);
    }
  }

  // ----- the invariants -----

  ghost predicate PlanFine(cfg: Config, plan: Plan) {
    && L.RowShape(cfg, plan.row.key, plan.row) && plan.entry.tenant == plan.tenant
    && (plan.row.waiver.Some? ==> L.Proves(plan.entry, plan.tenant, plan.row))
  }

  /** A handler's clock is ordered and a plan under way is well formed. */
  ghost predicate JobFine(cfg: Config, job: Job) {
    match job
    case Missed(handler) => L.ClockOrdered(handler)
    case Searching(handler, _) => L.ClockOrdered(handler)
    case Loaded(plan) => PlanFine(cfg, plan)
    case RowStored(plan) => PlanFine(cfg, plan)
    case _ => true
  }

  /** Rows are shaped and keyed, and so is every row on its way into the store. */
  ghost predicate Shaped(cfg: Config, s: State) {
    && (forall t :: L.RowsShaped(cfg, s.sys.store, t))
    && (forall h :: h in s.jobs ==> JobFine(cfg, s.jobs[h]))
  }

  /** A handler has stored this very row and is about to log it. */
  ghost predicate Pending(s: State, t: string, r: Row) {
    exists h :: h in s.jobs && s.jobs[h].RowStored? && s.jobs[h].plan.tenant == t && s.jobs[h].plan.row == r
  }

  ghost predicate Covered(s: State, t: string) {
    forall k :: k in RowsOf(s.sys.store, t) ==>
      var r := RowsOf(s.sys.store, t)[k];
      L.Approved(s.sys.audit, t, r) || Pending(s, t, r)
  }

  /** Every waiver has its approval on the log, or its handler is between storing and logging. */
  ghost predicate AllCovered(s: State) {
    forall t :: Covered(s, t)
  }

  // ----- plans -----

  lemma PlansFine(cfg: Config, handler: L.Step, r: Row)
    requires WritesRow(handler) && L.ClockOrdered(handler) && PlanWith(cfg, handler, r).Some?
    requires L.RowShape(cfg, r.key, r)
    ensures var plan := PlanWith(cfg, handler, r).value;
      PlanFine(cfg, plan) && plan.row.key == r.key && plan.row.firstSeen == r.firstSeen
      && plan.tenant == handler.p.tenant
  {
    hide TriageState, Stamp, Instant;
    match handler
    case Triage(p, key, body, t1, t2) => L.TriageNeverAccepts(body.value.state);
    case Waive(p, key, body, t0, t1, t2) => L.WaiverBound(cfg, body.value.expiresAt.value, t0, t2);
    case Revoke(p, key, now) =>
  }

  /** A row made for a current finding has the identity its key encodes. */
  lemma HitShape(cfg: Config, s: Store, t: string, id: string, key: string, now: int)
    requires HitIn(cfg, s, t, id, key).Some?
    ensures L.RowShape(cfg, key, OpenRow(key, HitIn(cfg, s, t, id, key).value, Some(Stamp(now))))
  {
    hide FirstWithKey;
    FirstWithKeyFound(cfg.digest, CurrentOf(s, t)(id), key);
  }

  // ----- what a single store call does to rows -----

  /** A call of a scan or a cluster change adds open rows or drops rows; it never rewrites one. */
  lemma CallRows(cfg: Config, s: Store, u: string, call: I.Call, t: string, k: string)
    requires IsCall(call) && k in RowsOf(I.After(cfg.digest, s, u, call), t)
    ensures var r := RowsOf(I.After(cfg.digest, s, u, call), t)[k];
      if k in RowsOf(s, t) then RowsOf(s, t)[k] == r else r.waiver.None? && L.RowShape(cfg, k, r)
  {
    hide Seeded, Recorded, Registered, Removed, L.RowShape, Key;
    var s' := I.After(cfg.digest, s, u, call);
    match call
    case CallSeed(clusterId, findings, now) =>
      if u == t {
        SeededRows(cfg.digest, RowsOf(s, t), clusterId, findings, now);
        if k !in RowsOf(s, t) {
          var f :| f in findings && k == Key(cfg.digest, clusterId, f)
            && RowsOf(s', t)[k] == SeedRow(cfg.digest, clusterId, f, now);
          L.SeedRowShape(cfg, clusterId, f, now);
        }
      }
    case _ =>
  }

  // ----- shapes are kept by every step -----

  lemma WithRowShaped(cfg: Config, s: State, h: nat, handler: L.Step, r: Row)
    requires Shaped(cfg, s) && WritesRow(handler) && L.ClockOrdered(handler) && L.RowShape(cfg, r.key, r)
    ensures Shaped(cfg, WithRow(cfg, s, h, handler, r))
  {
    hide PlanWith, L.RowShape, L.RowsShaped, PlanFine;
    if PlanWith(cfg, handler, r).Some? { PlansFine(cfg, handler, r); }
  }

  lemma HandlerShaped(cfg: Config, s: State, step: Step)
    requires Shaped(cfg, s) && Enabled(s, step) && (step.Get? || step.ListIds? || step.Probe?)
    requires step.Get? ==> L.ClockOrdered(step.handler)
    ensures Shaped(cfg, Apply(cfg, s, step))
  {
    hide WithRow, HitIn, ClusterIds, PlanFine;
    match step
    case Get(h, handler) =>
      var t, key := handler.p.tenant, handler.key;
      assert L.RowsShaped(cfg, s.sys.store, t);
      if GetLifecycle(s.sys.store, t, key).Some? {
        WithRowShaped(cfg, s, h, handler, GetLifecycle(s.sys.store, t, key).value);
      }
    case ListIds(h) => assert JobFine(cfg, s.jobs[h]);
    case Probe(h) =>
      var handler, ids := s.jobs[h].handler, s.jobs[h].ids;
      assert JobFine(cfg, s.jobs[h]);
      if ids != [] && HitIn(cfg, s.sys.store, handler.p.tenant, ids[0], handler.key).Some? {
        var c := HitIn(cfg, s.sys.store, handler.p.tenant, ids[0], handler.key).value;
        HitShape(cfg, s.sys.store, handler.p.tenant, ids[0], handler.key, SeenAt(handler));
        WithRowShaped(cfg, s, h, handler, OpenRow(handler.key, c, Some(Stamp(SeenAt(handler)))));
      }
  }

  /** Rows that are old or new and well shaped. */
  lemma ShapedFrom(cfg: Config, s: Store, s': Store, t: string)
    requires L.RowsShaped(cfg, s, t)
    requires forall k :: k in RowsOf(s', t) ==>
      (k in RowsOf(s, t) && RowsOf(s', t)[k] == RowsOf(s, t)[k]) || L.RowShape(cfg, k, RowsOf(s', t)[k])
    ensures L.RowsShaped(cfg, s', t)
  {
  }

  lemma ShapesKept(cfg: Config, s: State, step: Step)
    requires Shaped(cfg, s) && Enabled(s, step)
    requires step.Get? ==> L.ClockOrdered(step.handler)
    ensures Shaped(cfg, Apply(cfg, s, step))
  {
    hide L.RowShape, PlanFine, Written, Stamp, I.After, WithRow, HitIn, ClusterIds;
    var s' := Apply(cfg, s, step);
    match step
    case StoreRow(h) =>
      assert JobFine(cfg, s.jobs[h]);
      PlanShape(cfg, s.jobs[h].plan);
      forall t ensures L.RowsShaped(cfg, s'.sys.store, t) { ShapedFrom(cfg, s.sys.store, s'.sys.store, t); }
    case Call(u, call) =>
      forall t ensures L.RowsShaped(cfg, s'.sys.store, t) {
        forall k | k in RowsOf(s'.sys.store, t) ensures L.RowShape(cfg, k, RowsOf(s'.sys.store, t)[k]) {
          assert L.RowsShaped(cfg, s.sys.store, t);
          CallRows(cfg, s.sys.store, u, call, t, k);
        }
      }
    case EraseStore(h) =>
      forall t ensures L.RowsShaped(cfg, s'.sys.store, t) { ShapedFrom(cfg, s.sys.store, s'.sys.store, t); }
    case LogEntry(_) =>
    case BeginErase(_, _, _, _, _) =>
    case Purge(_) =>
    case Log(_) =>
    case _ => HandlerShaped(cfg, s, step);
  }

  lemma PlanShape(cfg: Config, plan: Plan)
    requires PlanFine(cfg, plan)
    ensures L.RowShape(cfg, plan.row.key, plan.row) && plan.entry.tenant == plan.tenant
    ensures plan.row.waiver.Some? ==> L.Proves(plan.entry, plan.tenant, plan.row)
  {
  }

  // ----- coverage is kept by every step but a purge -----

  lemma MoreLog(a: Audit, a': Audit, t: string, r: Row)
    requires L.Approved(a, t, r) && Within(Entries(a, t), Entries(a', t))
    ensures L.Approved(a', t, r)
  {
  }

  /** One row keeps its cover when the log grows and its pending handler, if any, is still pending. */
  lemma CoverCarries(s: State, s': State, t: string, r: Row)
    requires L.Approved(s.sys.audit, t, r) || Pending(s, t, r)
    requires Within(Entries(s.sys.audit, t), Entries(s'.sys.audit, t))
    requires forall h :: h in s.jobs && s.jobs[h].RowStored? ==> h in s'.jobs && s'.jobs[h] == s.jobs[h]
    ensures L.Approved(s'.sys.audit, t, r) || Pending(s', t, r)
  {
    hide L.Approved;
    if L.Approved(s.sys.audit, t, r) {
      MoreLog(s.sys.audit, s'.sys.audit, t, r);
    }
  }

  lemma StoreCovers(cfg: Config, s: State, h: nat, t: string)
    requires Covered(s, t) && Enabled(s, StoreRow(h))
    ensures Covered(Apply(cfg, s, StoreRow(h)), t)
  {
    hide L.Approved;
    var s', plan := Apply(cfg, s, StoreRow(h)), s.jobs[h].plan;
    forall k | k in RowsOf(s'.sys.store, t)
      ensures var r := RowsOf(s'.sys.store, t)[k]; L.Approved(s'.sys.audit, t, r) || Pending(s', t, r)
    {
      if t == plan.tenant && k == plan.row.key {
        assert s'.jobs[h].RowStored? && s'.jobs[h].plan.row == RowsOf(s'.sys.store, t)[k];
      } else {
        assert RowsOf(s'.sys.store, t)[k] == RowsOf(s.sys.store, t)[k];
        CoverCarries(s, s', t, RowsOf(s.sys.store, t)[k]);
      }
    }
  }

  lemma LogCovers(cfg: Config, s: State, h: nat, t: string)
    requires Covered(s, t) && Enabled(s, LogEntry(h)) && PlanFine(cfg, s.jobs[h].plan)
    ensures Covered(Apply(cfg, s, LogEntry(h)), t)
  {
    hide L.Approved, L.RowShape;
    var s', plan := Apply(cfg, s, LogEntry(h)), s.jobs[h].plan;
    L.EntriesGrow(s.sys.audit, plan.entry, t);
    L.EntriesGrow(s.sys.audit, plan.entry, plan.tenant);
    hide Written;
    forall k | k in RowsOf(s'.sys.store, t)
      ensures var r := RowsOf(s'.sys.store, t)[k]; L.Approved(s'.sys.audit, t, r) || Pending(s', t, r)
    {
      var r := RowsOf(s.sys.store, t)[k];
      if L.Approved(s.sys.audit, t, r) {
        MoreLog(s.sys.audit, s'.sys.audit, t, r);
      } else {
        var g :| g in s.jobs && s.jobs[g].RowStored? && s.jobs[g].plan.tenant == t && s.jobs[g].plan.row == r;
        if g == h {
          LoggedApproves(s'.sys.audit, plan);
        } else {
          assert s'.jobs[g] == s.jobs[g];
        }
      }
    }
  }

  lemma LoggedApproves(a: Audit, plan: Plan)
    requires plan.entry in Entries(a, plan.tenant)
    requires plan.row.waiver.Some? ==> L.Proves(plan.entry, plan.tenant, plan.row)
    ensures L.Approved(a, plan.tenant, plan.row)
  {
  }

  lemma EraseCovers(cfg: Config, s: State, h: nat, t: string)
    requires Covered(s, t) && Enabled(s, EraseStore(h))
    ensures Covered(Apply(cfg, s, EraseStore(h)), t)
  {
    hide L.Approved;
    var s' := Apply(cfg, s, EraseStore(h));
    forall k | k in RowsOf(s'.sys.store, t)
      ensures var r := RowsOf(s'.sys.store, t)[k]; L.Approved(s'.sys.audit, t, r) || Pending(s', t, r)
    {
      assert RowsOf(s'.sys.store, t)[k] == RowsOf(s.sys.store, t)[k];
      CoverCarries(s, s', t, RowsOf(s.sys.store, t)[k]);
    }
  }

  lemma CallCovers(cfg: Config, s: State, u: string, call: I.Call, t: string)
    requires Covered(s, t) && Enabled(s, Call(u, call))
    ensures Covered(Apply(cfg, s, Call(u, call)), t)
  {
    hide I.After, L.RowShape;
    var s' := Apply(cfg, s, Call(u, call));
    forall k | k in RowsOf(s'.sys.store, t)
      ensures var r := RowsOf(s'.sys.store, t)[k]; L.Approved(s'.sys.audit, t, r) || Pending(s', t, r)
    {
      CallRows(cfg, s.sys.store, u, call, t, k);
      var r := RowsOf(s'.sys.store, t)[k];
      if r.waiver.Some? { CoverCarries(s, s', t, r); }
    }
  }

  /** Steps that leave the store alone, write at most one entry and disturb no handler about to log. */
  predicate IsQuiet(step: Step) {
    step.Get? || step.ListIds? || step.Probe? || step.BeginErase? || step.Log?
  }

  lemma QuietFrame(cfg: Config, s: State, step: Step, t: string)
    requires Enabled(s, step) && IsQuiet(step)
    ensures var s' := Apply(cfg, s, step);
      && s'.sys.store == s.sys.store && Within(Entries(s.sys.audit, t), Entries(s'.sys.audit, t))
      && forall h :: h in s.jobs && s.jobs[h].RowStored? ==> h in s'.jobs && s'.jobs[h] == s.jobs[h]
  {
    hide PlanWith, HitIn, ClusterIds, Stamp;
  }

  lemma QuietCovers(cfg: Config, s: State, step: Step, t: string)
    requires Covered(s, t) && Enabled(s, step) && IsQuiet(step)
    ensures Covered(Apply(cfg, s, step), t)
  {
    hide L.Approved, Apply, Pending;
    QuietFrame(cfg, s, step, t);
    var s' := Apply(cfg, s, step);
    forall k | k in RowsOf(s'.sys.store, t)
      ensures var r := RowsOf(s'.sys.store, t)[k]; L.Approved(s'.sys.audit, t, r) || Pending(s', t, r)
    {
      CoverCarries(s, s', t, RowsOf(s.sys.store, t)[k]);
    }
  }

  /** A purge that strips no stored waiver of its proof: each waived row of its target is about to be logged. */
  ghost predicate QuietPurge(s: State, step: Step) {
    step.Purge? && step.h in s.jobs && s.jobs[step.h].Purging? ==>
      var t := s.jobs[step.h].target;
      forall k :: k in RowsOf(s.sys.store, t) && RowsOf(s.sys.store, t)[k].waiver.Some? ==>
        Pending(s, t, RowsOf(s.sys.store, t)[k])
  }

  /** A purge keeps every waiver covered exactly when each waived row of its target is about to be logged. */
  lemma PurgeExact(cfg: Config, s: State, h: nat)
    requires AllCovered(s) && Enabled(s, Purge(h))
    ensures AllCovered(Apply(cfg, s, Purge(h))) <==> QuietPurge(s, Purge(h))
  {
    hide L.Proves;
    var s', target := Apply(cfg, s, Purge(h)), s.jobs[h].target;
    forall t, r: Row ensures Pending(s', t, r) <==> Pending(s, t, r) { PurgeKeepsPending(cfg, s, h, t, r); }
    hide Pending;
    assert Entries(s'.sys.audit, target) == [];
    forall t | t != target ensures Covered(s', t) {
      assert Covered(s, t) && Entries(s'.sys.audit, t) == Entries(s.sys.audit, t);
    }
    assert Covered(s', target) <==> QuietPurge(s, Purge(h));
  }

  lemma PurgeKeepsPending(cfg: Config, s: State, h: nat, t: string, r: Row)
    requires Enabled(s, Purge(h))
    ensures Pending(Apply(cfg, s, Purge(h)), t, r) <==> Pending(s, t, r)
  {
    var s' := Apply(cfg, s, Purge(h));
    if g :| g in s.jobs && s.jobs[g].RowStored? && s.jobs[g].plan.tenant == t && s.jobs[g].plan.row == r {
      assert g in s'.jobs && s'.jobs[g] == s.jobs[g];
    }
  }

  lemma StepCovers(cfg: Config, s: State, step: Step)
    requires Shaped(cfg, s) && AllCovered(s) && Enabled(s, step) && QuietPurge(s, step)
    ensures AllCovered(Apply(cfg, s, step))
  {
    hide Covered, Apply, QuietPurge, L.RowsShaped, PlanFine;
    if step.Purge? {
      PurgeExact(cfg, s, step.h);
    } else {
      forall t ensures Covered(Apply(cfg, s, step), t) {
        assert Covered(s, t);
        match step
        case StoreRow(h) => StoreCovers(cfg, s, h, t);
        case LogEntry(h) =>
          assert JobFine(cfg, s.jobs[h]);
          LogCovers(cfg, s, h, t);
        case EraseStore(h) => EraseCovers(cfg, s, h, t);
        case Call(u, call) => CallCovers(cfg, s, u, call, t);
        case _ => QuietCovers(cfg, s, step, t);
      }
    }
  }

  // ----- every interleaving -----

  const INITIAL := State(System(EMPTY_STORE, map[]), map[])

  /** A run of the system from a state. */
  ghost predicate Follows(cfg: Config, start: State, steps: seq<Step>, states: seq<State>) {
    && |states| == |steps| + 1 && states[0] == start
    && forall i :: 0 <= i < |steps| ==>
         Enabled(states[i], steps[i]) && states[i + 1] == Apply(cfg, states[i], steps[i])
  }

  /** A run from the empty system in which no handler's clock goes back. */
  ghost predicate IsRun(cfg: Config, steps: seq<Step>, states: seq<State>) {
    && Follows(cfg, INITIAL, steps, states)
    && forall i :: 0 <= i < |steps| && steps[i].Get? ==> L.ClockOrdered(steps[i].handler)
  }

  /** Under every interleaving, purges included, rows keep their shape. */
  lemma {:induction false} EveryRunShaped(cfg: Config, steps: seq<Step>, states: seq<State>, i: nat)
    requires IsRun(cfg, steps, states) && i < |states|
    ensures Shaped(cfg, states[i])
  {
    hide Apply, Enabled, L.RowShape, PlanFine;
    if i > 0 {
      EveryRunShaped(cfg, steps, states, i - 1);
      ShapesKept(cfg, states[i - 1], steps[i - 1]);
    }
  }

  /**
   * Under every interleaving in which no purge strips a stored waiver of its proof, each waiver is
   * approved on its tenant's log or its handler is between storing and logging; when no handler is
   * there, every waiver is approved.
   */
  lemma {:induction false} EveryRunCovered(cfg: Config, steps: seq<Step>, states: seq<State>, i: nat)
    requires IsRun(cfg, steps, states) && i < |states|
    requires forall j :: 0 <= j < |steps| ==> QuietPurge(states[j], steps[j])
    ensures AllCovered(states[i])
    ensures (forall h :: h in states[i].jobs ==> !states[i].jobs[h].RowStored?) ==>
      forall t, k :: k in RowsOf(states[i].sys.store, t) ==>
        L.Approved(states[i].sys.audit, t, RowsOf(states[i].sys.store, t)[k])
  {
    hide Apply, Enabled, Shaped, QuietPurge, L.Approved;
    if i > 0 {
      EveryRunCovered(cfg, steps, states, i - 1);
      EveryRunShaped(cfg, steps, states, i - 1);
      StepCovers(cfg, states[i - 1], steps[i - 1]);
    }
    forall t, k |
      && k in RowsOf(states[i].sys.store, t)
      && forall h :: h in states[i].jobs ==> !states[i].jobs[h].RowStored?
      ensures L.Approved(states[i].sys.audit, t, RowsOf(states[i].sys.store, t)[k])
    {
      assert Covered(states[i], t);
    }
  }

  // ----- an erasure inside a waiver's window -----

  /** A waiver is about to be stored; its tenant is erased; the handler stores and logs; the erasure purges. */
  function Race(q: Principal, target: string, now: int): seq<Step> {
    [BeginErase(1, q, target, true, now), EraseStore(1), StoreRow(0), LogEntry(0), Purge(1)]
  }

  predicate MayErase(q: Principal, target: string) {
    target != "" && (q.tenant == target || q.superAdmin)
  }

  function Start(sys: System, plan: Plan): State {
    State(sys, map[0 := Loaded(plan)])
  }

  ghost predicate Leads(cfg: Config, s: State, step: Step, s': State) {
    Enabled(s, step) && Apply(cfg, s, step) == s'
  }

  lemma EraseLeads(cfg: Config, sys: System, plan: Plan, q: Principal, now: int)
    requires MayErase(q, plan.tenant)
    ensures var t := plan.tenant;
      var entry := AuditEntry(Stamp(now), q.subject, q.tenant, "tenant.delete", Plain(t), "allowed");
      var begun := System(sys.store, Written(sys.audit, entry));
      && Leads(cfg, Start(sys, plan), BeginErase(1, q, t, true, now),
               State(begun, map[0 := Loaded(plan), 1 := Erasing(t)]))
      && Leads(cfg, State(begun, map[0 := Loaded(plan), 1 := Erasing(t)]), EraseStore(1),
               State(System(DeleteTenant(sys.store, t), begun.audit), map[0 := Loaded(plan), 1 := Purging(t)]))
  {
    hide Written, Stamp;
  }

  lemma FinishLeads(cfg: Config, sys: System, plan: Plan, t: string)
    ensures var stored := System(UpsertLifecycle(sys.store, plan.tenant, plan.row), sys.audit);
      var logged := System(stored.store, Written(sys.audit, plan.entry));
      && Leads(cfg, State(sys, map[0 := Loaded(plan), 1 := Purging(t)]), StoreRow(0),
               State(stored, map[0 := RowStored(plan), 1 := Purging(t)]))
      && Leads(cfg, State(stored, map[0 := RowStored(plan), 1 := Purging(t)]), LogEntry(0),
               State(logged, map[1 := Purging(t)]))
      && Leads(cfg, State(logged, map[1 := Purging(t)]), Purge(1), State(logged.(audit := logged.audit - {t}), map[]))
  {
    hide Written;
    assert map[0 := RowStored(plan), 1 := Purging(t)] - {0} == map[1 := Purging(t)];
    assert map[1 := Purging(t)] - {1} == map[];
  }

  /** Where the race ends: the row stored after the deletion, the log purged after the entry. */
  function RaceEnd(sys: System, plan: Plan, q: Principal, now: int): State {
    var t := plan.tenant;
    var entry := AuditEntry(Stamp(now), q.subject, q.tenant, "tenant.delete", Plain(t), "allowed");
    State(System(UpsertLifecycle(DeleteTenant(sys.store, t), t, plan.row),
                 Written(Written(sys.audit, entry), plan.entry) - {t}), map[])
  }

  lemma FiveSteps(cfg: Config, steps: seq<Step>, states: seq<State>)
    requires |steps| == 5 && |states| == 6
    requires Leads(cfg, states[0], steps[0], states[1]) && Leads(cfg, states[1], steps[1], states[2])
    requires Leads(cfg, states[2], steps[2], states[3]) && Leads(cfg, states[3], steps[3], states[4])
    requires Leads(cfg, states[4], steps[4], states[5])
    ensures Follows(cfg, states[0], steps, states)
  {
    hide Apply, Enabled;
    forall i | 0 <= i < 5 ensures Leads(cfg, states[i], steps[i], states[i + 1]) {}
  }

  /** The race can happen to every waiver about to be stored. */
  lemma RaceIsPossible(cfg: Config, sys: System, plan: Plan, q: Principal, now: int) returns (states: seq<State>)
    requires MayErase(q, plan.tenant)
    ensures Follows(cfg, Start(sys, plan), Race(q, plan.tenant, now), states)
    ensures states[5] == RaceEnd(sys, plan, q, now)
  {
    hide Apply, Enabled, Written, Stamp, Leads, UpsertLifecycle, DeleteTenant;
    var t := plan.tenant;
    var entry := AuditEntry(Stamp(now), q.subject, q.tenant, "tenant.delete", Plain(t), "allowed");
    var begun := System(sys.store, Written(sys.audit, entry));
    var erased := System(DeleteTenant(sys.store, t), begun.audit);
    var stored := System(UpsertLifecycle(erased.store, t, plan.row), begun.audit);
    var logged := System(stored.store, Written(begun.audit, plan.entry));
    EraseLeads(cfg, sys, plan, q, now);
    FinishLeads(cfg, erased, plan, t);
    states := [Start(sys, plan), State(begun, map[0 := Loaded(plan), 1 := Erasing(t)]),
               State(erased, map[0 := Loaded(plan), 1 := Purging(t)]),
               State(stored, map[0 := RowStored(plan), 1 := Purging(t)]), State(logged, map[1 := Purging(t)]),
               State(logged.(audit := logged.audit - {t}), map[])];
    FiveSteps(cfg, Race(q, t, now), states);
  }

  /** Steps are deterministic: the same steps from the same state end alike. */
  lemma {:induction false} SameRun(cfg: Config, start: State, steps: seq<Step>, a: seq<State>, b: seq<State>, i: nat)
    requires Follows(cfg, start, steps, a) && Follows(cfg, start, steps, b) && i <= |steps|
    ensures a[i] == b[i]
  {
    hide Apply, Enabled;
    if i > 0 { SameRun(cfg, start, steps, a, b, i - 1); }
  }

  /**
   * For any waiver about to be stored: if its tenant is erased in between, by itself or by a
   * super-admin, the row is back in the erased tenant, belongs to no cluster, and its approval is
   * gone although every handler finished.
   */
  lemma ErasureInsideWindow(cfg: Config, sys: System, plan: Plan, q: Principal, now: int, states: seq<State>)
    requires plan.row.waiver.Some? && MayErase(q, plan.tenant)
    requires Follows(cfg, Start(sys, plan), Race(q, plan.tenant, now), states)
    ensures var s, t := states[5], plan.tenant;
      && s.jobs == map[] && GetLifecycle(s.sys.store, t, plan.row.key) == Some(plan.row)
      && TenantOf(s.sys.store, t).clusters == map[] && Entries(s.sys.audit, t) == [] && !Covered(s, t)
  {
    assert |states| == 6;
    hide Follows, Written;
    var run := RaceIsPossible(cfg, sys, plan, q, now);
    SameRun(cfg, Start(sys, plan), Race(q, plan.tenant, now), states, run, 5);
    assert RowsOf(states[5].sys.store, plan.tenant)[plan.row.key] == plan.row;
    assert !L.Approved(states[5].sys.audit, plan.tenant, plan.row);
  }

  /** Every waiver granted on a tracked row gets there. */
  lemma GrantedWaiverIsLoaded(cfg: Config, sys: System, handler: L.Step) returns (plan: Plan)
    requires handler.Waive? && GetLifecycle(sys.store, handler.p.tenant, handler.key).Some?
    requires WaiverAccepted(cfg, handler.waiver, handler.t0)
    ensures plan.row.waiver.Some? && plan.tenant == handler.p.tenant
    ensures Apply(cfg, State(sys, map[]), Get(0, handler)) == Start(sys, plan)
  {
    hide Stamp, WaiverAccepted;
    plan := PlanWith(cfg, handler, GetLifecycle(sys.store, handler.p.tenant, handler.key).value).value;
  }

  // ----- when a finding was first seen -----

  /** A step changes a stored row's first sighting exactly when it stores another one under its key. */
  lemma FirstSeenExact(cfg: Config, s: State, step: Step, t: string, k: string)
    requires Enabled(s, step) && k in RowsOf(s.sys.store, t) && k in RowsOf(Apply(cfg, s, step).sys.store, t)
    ensures RowsOf(Apply(cfg, s, step).sys.store, t)[k].firstSeen != RowsOf(s.sys.store, t)[k].firstSeen
      <==> step.StoreRow? && s.jobs[step.h].plan.tenant == t && s.jobs[step.h].plan.row.key == k
           && s.jobs[step.h].plan.row.firstSeen != RowsOf(s.sys.store, t)[k].firstSeen
  {
    hide I.After, L.RowShape;
    if step.Call? {
      CallRows(cfg, s.sys.store, step.t, step.call, t, k);
    } else if IsQuiet(step) {
      QuietFrame(cfg, s, step, t);
    }
  }

  /** A plan whose row is tracked, with the first sighting it was loaded with. */
  ghost predicate Agrees(s: State, plan: Plan) {
    && plan.row.key in RowsOf(s.sys.store, plan.tenant)
    && RowsOf(s.sys.store, plan.tenant)[plan.row.key].firstSeen == plan.row.firstSeen
  }

  /** Every row about to be stored agrees with the stored one. */
  ghost predicate Steady(s: State) {
    forall h :: h in s.jobs && s.jobs[h].Loaded? ==> Agrees(s, s.jobs[h].plan)
  }

  /** A handler found its finding untracked, or a row some handler is about to store was dropped. */
  ghost predicate Disturbs(cfg: Config, s: State, step: Step)
    requires Enabled(s, step)
  {
    var s' := Apply(cfg, s, step);
    || (step.Probe? && step.h in s'.jobs && s'.jobs[step.h].Loaded?)
    || exists h :: h in s.jobs && h in s'.jobs && s'.jobs[h].Loaded?
         && s'.jobs[h].plan.row.key in RowsOf(s.sys.store, s'.jobs[h].plan.tenant)
         && s'.jobs[h].plan.row.key !in RowsOf(s'.sys.store, s'.jobs[h].plan.tenant)
  }

  lemma WithRowSteady(cfg: Config, s: State, h: nat, handler: L.Step, r: Row)
    requires Steady(s) && WritesRow(handler) && L.ClockOrdered(handler) && L.RowShape(cfg, r.key, r)
    requires r.key in RowsOf(s.sys.store, handler.p.tenant) && RowsOf(s.sys.store, handler.p.tenant)[r.key] == r
    ensures Steady(WithRow(cfg, s, h, handler, r))
  {
    hide PlanWith, L.RowShape;
    if PlanWith(cfg, handler, r).Some? { PlansFine(cfg, handler, r); }
  }

  lemma GetSteady(cfg: Config, s: State, h: nat, handler: L.Step)
    requires Shaped(cfg, s) && Steady(s) && Enabled(s, Get(h, handler)) && L.ClockOrdered(handler)
    ensures Steady(Apply(cfg, s, Get(h, handler)))
  {
    hide WithRow;
    var t, key := handler.p.tenant, handler.key;
    assert L.RowsShaped(cfg, s.sys.store, t);
    if GetLifecycle(s.sys.store, t, key).Some? {
      WithRowSteady(cfg, s, h, handler, RowsOf(s.sys.store, t)[key]);
    }
  }

  /** Plans that were under way keep agreeing when their rows are kept or stored anew by a plan that agrees. */
  lemma CarriesOn(cfg: Config, s: State, step: Step, h: nat)
    requires Steady(s) && Enabled(s, step) && !Disturbs(cfg, s, step) && h in s.jobs && s.jobs[h].Loaded?
    requires h in Apply(cfg, s, step).jobs && Apply(cfg, s, step).jobs[h] == s.jobs[h]
    ensures Agrees(Apply(cfg, s, step), s.jobs[h].plan)
  {
    var plan := s.jobs[h].plan;
    assert Agrees(s, plan);
    assert plan.row.key in RowsOf(Apply(cfg, s, step).sys.store, plan.tenant);
    hide Disturbs, Apply;
    FirstSeenExact(cfg, s, step, plan.tenant, plan.row.key);
    if step.StoreRow? { assert Agrees(s, s.jobs[step.h].plan); }
  }

  /** The jobs a step leaves at the point of storing were there before, or were loaded by this step. */
  lemma StillLoaded(cfg: Config, s: State, step: Step, h: nat)
    requires Enabled(s, step) && h in Apply(cfg, s, step).jobs && Apply(cfg, s, step).jobs[h].Loaded?
    ensures (h in s.jobs && s.jobs[h] == Apply(cfg, s, step).jobs[h]) || ((step.Get? || step.Probe?) && step.h == h)
  {
    hide PlanWith, HitIn, ClusterIds, Stamp, I.After, Written;
  }

  lemma SteadyKept(cfg: Config, s: State, step: Step)
    requires Shaped(cfg, s) && Steady(s) && Enabled(s, step) && !Disturbs(cfg, s, step)
    requires step.Get? ==> L.ClockOrdered(step.handler)
    ensures Steady(Apply(cfg, s, step))
  {
    var s' := Apply(cfg, s, step);
    if step.Get? {
      GetSteady(cfg, s, step.h, step.handler);
    } else {
      forall h | h in s'.jobs && s'.jobs[h].Loaded? ensures Agrees(s', s'.jobs[h].plan) {
        StillLoaded(cfg, s, step, h);
        CarriesOn(cfg, s, step, h);
      }
    }
  }

  lemma {:induction false} EveryRunSteady(cfg: Config, steps: seq<Step>, states: seq<State>, i: nat)
    requires IsRun(cfg, steps, states) && i < |states|
    requires forall j :: 0 <= j < i ==> !Disturbs(cfg, states[j], steps[j])
    ensures Steady(states[i])
  {
    hide Apply, Enabled, Shaped, Disturbs;
    if i > 0 {
      EveryRunSteady(cfg, steps, states, i - 1);
      EveryRunShaped(cfg, steps, states, i - 1);
      SteadyKept(cfg, states[i - 1], steps[i - 1]);
    }
  }

  /**
   * Under every interleaving in which handlers find their findings tracked and no row is dropped
   * under a handler about to store it, no step changes when a finding was first seen.
   */
  lemma FirstSeenOverRuns(cfg: Config, steps: seq<Step>, states: seq<State>, i: nat, t: string, k: string)
    requires IsRun(cfg, steps, states) && i < |steps|
    requires forall j :: 0 <= j < i ==> !Disturbs(cfg, states[j], steps[j])
    requires k in RowsOf(states[i].sys.store, t) && k in RowsOf(states[i + 1].sys.store, t)
    ensures RowsOf(states[i + 1].sys.store, t)[k].firstSeen == RowsOf(states[i].sys.store, t)[k].firstSeen
  {
    hide Apply, Disturbs;
    EveryRunSteady(cfg, steps, states, i);
    FirstSeenExact(cfg, states[i], steps[i], t, k);
    if steps[i].StoreRow? { assert Agrees(states[i], states[i].jobs[steps[i].h].plan); }
  }

  /**
   * A handler that found its finding untracked, while a scan had recorded but not yet seeded it: the
   * scan's seed sets one time, the handler's store replaces it by the handler's.
   */
  lemma SeedInsideWindow(cfg: Config, sys: System, plan: Plan, clusterId: string, f: Finding, now: int,
                         states: seq<State>)
    requires plan.row.key == Key(cfg.digest, clusterId, f) && plan.row.key !in RowsOf(sys.store, plan.tenant)
    requires Follows(cfg, Start(sys, plan), [Call(plan.tenant, I.CallSeed(clusterId, [f], now)), StoreRow(0)], states)
    ensures var t, k := plan.tenant, plan.row.key;
      && GetLifecycle(states[1].sys.store, t, k).Some? && GetLifecycle(states[2].sys.store, t, k) == Some(plan.row)
      && GetLifecycle(states[1].sys.store, t, k).value.firstSeen == Some(now)
  {
    var steps := [Call(plan.tenant, I.CallSeed(clusterId, [f], now)), StoreRow(0)];
    assert states[1] == Apply(cfg, states[0], steps[0]);
    assert states[2] == Apply(cfg, states[1], steps[1]);
    hide Key, Seeded;
    SeededRows(cfg.digest, RowsOf(sys.store, plan.tenant), clusterId, [f], now);
  }

  /** A scan of a new cluster that has recorded its report and not seeded it yet. */
  function RecordedOnly(t: string, c: string, scanId: string, rep: Report, at: int): Store {
    RecordScan(EMPTY_STORE, t, c, scanId, rep, at)
  }

  lemma RecordedIsListed(t: string, c: string, scanId: string, rep: Report, at: int)
    ensures var s := RecordedOnly(t, c, scanId, rep, at);
      && RowsOf(s, t) == map[] && ClusterIds(s, t) == [c] && (c != "" ==> GetReport(s, t, c) == Some(rep))
  {
    var s := RecordedOnly(t, c, scanId, rep, at);
    var ts := s.tenants[t];
    assert ts.order == [c];
    FlatMapSingle(MetaOf(ts), c);
    FlatMapSingle(IdOf, ts.clusters[c].meta);
  }

  lemma RecordedIsHit(cfg: Config, t: string, c: string, scanId: string, rep: Report, at: int, f: Finding)
    requires c != "" && rep.findings == [f]
    ensures HitIn(cfg, RecordedOnly(t, c, scanId, rep, at), t, c, Key(cfg.digest, c, f))
      == Some(Dashboard.Current(c, f))
  {
    RecordedIsListed(t, c, scanId, rep, at);
    hide RecordedOnly, GetReport, Key;
    FlatMapSingle(Tagged(c), f);
  }

  lemma RecordLeads(cfg: Config, t: string, c: string, scanId: string, rep: Report, at: int)
    ensures Leads(cfg, INITIAL, Call(t, I.CallRecordScan(c, scanId, rep, at)),
                  State(System(RecordedOnly(t, c, scanId, rep, at), map[]), map[]))
  {
  }

  /** The search of an untracked finding that the first cluster's report holds. */
  lemma SearchLeads(cfg: Config, sys: System, handler: L.Step, c: string, hit: Dashboard.Current)
    requires handler.Triage? && GetLifecycle(sys.store, handler.p.tenant, handler.key).None?
    requires ClusterIds(sys.store, handler.p.tenant) == [c]
    requires HitIn(cfg, sys.store, handler.p.tenant, c, handler.key) == Some(hit)
    requires PlanWith(cfg, handler, OpenRow(handler.key, hit, Some(Stamp(handler.t1)))).Some?
    ensures Leads(cfg, State(sys, map[]), Get(0, handler), State(sys, map[0 := Missed(handler)]))
    ensures Leads(cfg, State(sys, map[0 := Missed(handler)]), ListIds(0), State(sys, map[0 := Searching(handler, [c])]))
    ensures var row := OpenRow(handler.key, hit, Some(Stamp(handler.t1)));
      Leads(cfg, State(sys, map[0 := Searching(handler, [c])]), Probe(0),
            Start(sys, PlanWith(cfg, handler, row).value))
  {
    hide GetLifecycle, ClusterIds, HitIn, PlanWith, Stamp;
  }

  lemma TriagePlan(cfg: Config, p: Principal, body: TriageBody, t1: int, t2: int, r: Row)
    requires TriageState(body.state).Some?
    ensures var plan := PlanWith(cfg, L.Triage(p, r.key, Some(body), t1, t2), r);
      plan.Some? && plan.value.tenant == p.tenant && plan.value.row.key == r.key
      && plan.value.row.firstSeen == r.firstSeen
  {
    hide TriageState, Stamp;
  }

  /** A triage of an untracked finding between the record and the seed of its scan gets to the window. */
  lemma UntrackedIsLoaded(cfg: Config, p: Principal, body: TriageBody, c: string, scanId: string, rep: Report, at: int,
                          f: Finding, t1: int, t2: int) returns (plan: Plan, steps: seq<Step>, states: seq<State>)
    requires c != "" && rep.findings == [f] && TriageState(body.state).Some?
    ensures |steps| == 4 && |states| == 5 && Follows(cfg, INITIAL, steps, states)
    ensures var key, s := Key(cfg.digest, c, f), RecordedOnly(p.tenant, c, scanId, rep, at);
      && states[4] == Start(System(s, map[]), plan) && plan.tenant == p.tenant
      && plan.row.key == key && plan.row.firstSeen == Some(Stamp(t1)) && key !in RowsOf(s, p.tenant)
  {
    hide Key, ClusterIds, HitIn, GetReport, Stamp, RecordedOnly, Apply, Enabled, PlanWith, TriageState, Leads, Follows;
    var key, s := Key(cfg.digest, c, f), RecordedOnly(p.tenant, c, scanId, rep, at);
    RecordedIsListed(p.tenant, c, scanId, rep, at);
    RecordedIsHit(cfg, p.tenant, c, scanId, rep, at, f);
    RecordLeads(cfg, p.tenant, c, scanId, rep, at);
    var hit, handler, sys := Dashboard.Current(c, f), L.Triage(p, key, Some(body), t1, t2), System(s, map[]);
    var row := OpenRow(key, hit, Some(Stamp(t1)));
    TriagePlan(cfg, p, body, t1, t2, row);
    plan := PlanWith(cfg, handler, row).value;
    SearchLeads(cfg, sys, handler, c, hit);
    steps := [Call(p.tenant, I.CallRecordScan(c, scanId, rep, at)), Get(0, handler), ListIds(0), Probe(0)];
    states := [INITIAL, State(sys, map[]), State(sys, map[0 := Missed(handler)]),
               State(sys, map[0 := Searching(handler, [c])]), Start(sys, plan)];
    FourSteps(cfg, steps, states);
  }

  lemma FourSteps(cfg: Config, steps: seq<Step>, states: seq<State>)
    requires |steps| == 4 && |states| == 5
    requires Leads(cfg, states[0], steps[0], states[1]) && Leads(cfg, states[1], steps[1], states[2])
    requires Leads(cfg, states[2], steps[2], states[3]) && Leads(cfg, states[3], steps[3], states[4])
    ensures Follows(cfg, states[0], steps, states)
  {
    hide Apply, Enabled;
    forall i | 0 <= i < 4 ensures Leads(cfg, states[i], steps[i], states[i + 1]) {}
  }

  // ----- run in one go, the steps are the atomic ones -----

  /** On a tracked finding, the three steps of a handler in a row do what the atomic handler does. */
  lemma HandlerInOneGo(cfg: Config, sys: System, handler: L.Step, states: seq<State>)
    requires WritesRow(handler) && GetLifecycle(sys.store, handler.p.tenant, handler.key).Some?
    requires PlanWith(cfg, handler, GetLifecycle(sys.store, handler.p.tenant, handler.key).value).Some?
    requires Follows(cfg, State(sys, map[]), [Get(0, handler), StoreRow(0), LogEntry(0)], states)
    ensures states[3] == State(L.Apply(cfg, sys, handler), map[])
  {
    var steps := [Get(0, handler), StoreRow(0), LogEntry(0)];
    var r := GetLifecycle(sys.store, handler.p.tenant, handler.key).value;
    var plan := PlanWith(cfg, handler, r).value;
    AtomicHandler(cfg, sys, handler);
    TrackedIsLoaded(cfg, sys.store, handler);
    hide PlanWith, L.Apply, Written, UpsertLifecycle, LoadedBy;
    assert states[1] == Apply(cfg, states[0], steps[0]) == Start(sys, plan);
    assert states[2] == Apply(cfg, states[1], steps[1]);
    assert states[3] == Apply(cfg, states[2], steps[2]);
    assert map[0 := RowStored(plan)] - {0} == map[];
  }

  lemma TrackedIsLoaded(cfg: Config, s: Store, handler: L.Step)
    requires WritesRow(handler) && GetLifecycle(s, handler.p.tenant, handler.key).Some?
    ensures LoadedBy(cfg, s, handler) == GetLifecycle(s, handler.p.tenant, handler.key)
  {
  }

  /** An erasure begins exactly with authority; its three steps in a row do what the atomic erasure does. */
  lemma ErasureInOneGo(cfg: Config, sys: System, q: Principal, target: string, now: int)
    requires target != ""
    ensures var s1 := Apply(cfg, State(sys, map[]), BeginErase(0, q, target, true, now));
      if MayErase(q, target)
      then Enabled(s1, EraseStore(0))
           && var s2 := Apply(cfg, s1, EraseStore(0));
              Enabled(s2, Purge(0))
              && Apply(cfg, s2, Purge(0)) == State(L.Apply(cfg, sys, L.Erase(q, target, true, now)), map[])
      else s1 == State(L.Apply(cfg, sys, L.Erase(q, target, true, now)), map[])
  {
    hide Written, Stamp;
    assert map[0 := Purging(target)] - {0} == map[];
  }
}
