/**
 * The scan worker pool as an interleaved step system: a bounded queue filled by the API,
 * drained by workers that each carry a job through scanning (with retries), storing,
 * seeding and auditing, and a close that waits for them. Several workers interleave
 * between any two of these effects. The sequences of recorded and audited jobs are
 * history the code does not keep.
 */
module Workers {
  import opened Common
  import opened Api
  import opened Rows
  import opened Store
  import opened Dashboard

  const ATTEMPTS := 3

  datatype Job = Job(tenant: string, clusterId: string, subject: string, scanId: string)

  /** Where a worker is with its job; `tries` counts scanner calls made. */
  datatype Phase =
    | Scanning(tries: nat)
    | Fetched(tries: nat, rep: Report)
    | Stored(tries: nat, rep: Report)
    | Seeding(tries: nat)
    | GaveUp(tries: nat)
  {
    predicate HasRecorded() { Stored? || Seeding? }
  }

  datatype Slot = Idle | Busy(job: Job, phase: Phase) | Exited

  datatype Finish = Finish(job: Job, ok: bool, tries: nat)

  /** A scan request: it has seen a pool, or has got hold of the pool's queue. */
  datatype Request = Tested(job: Job) | Holding(job: Job)

  /** Panics by dereferencing the missing pool, and by sending on the closed queue. */
  datatype Panics = Panics(missing: nat, closed: nat)

  datatype State = State(capacity: nat, queue: seq<Job>, slots: seq<Slot>, accepted: seq<Job>, finished: seq<Finish>,
                         requests: map<nat, Request>, closed: bool, returned: bool, panics: Panics, store: Store,
                         audit: Audit, recorded: seq<Job>, audited: seq<Job>)

  /** The API starts a pool only for at least one worker; a size that is not positive means 256. */
  function Initial(workers: nat, queueSize: int): State
    requires workers > 0
  {
    State(if queueSize <= 0 then 256 else queueSize, [], seq(workers, _ => Idle), [], [], map[], false, false,
          Panics(0, 0), EMPTY_STORE, map[], [], [])
  }

  /** A request tests the pool, reads it again for its queue, and sends: three steps without a lock. */
  datatype Step =
    | Test(r: nat, job: Job)
    | Fetch(r: nat)
    | Send(r: nat)
    | Take(w: nat)
    | Attempt(w: nat, outcome: Result<Report>, cancelled: bool)
    | Record(w: nat, at: int)
    | Seed(w: nat, digest: string -> string, now: int)
    | Audited(w: nat, at: int)
    | Close
    | Exit(w: nat)
    | Return

  predicate IsRequest(step: Step) {
    step.Test? || step.Fetch? || step.Send?
  }

  predicate InPhase(s: State, w: nat) {
    w < |s.slots| && s.slots[w].Busy?
  }

  predicate Enabled(s: State, step: Step) {
    match step
    case Test(r, _) => r !in s.requests
    case Fetch(r) => r in s.requests && s.requests[r].Tested?
    case Send(r) => r in s.requests && s.requests[r].Holding?
    case Take(w) => w < |s.slots| && s.slots[w].Idle? && s.queue != []
    case Attempt(w, _, _) => InPhase(s, w) && s.slots[w].phase.Scanning?
    case Record(w, _) => InPhase(s, w) && s.slots[w].phase.Fetched?
    case Seed(w, _, _) => InPhase(s, w) && s.slots[w].phase.Stored?
    case Audited(w, _) => InPhase(s, w) && (s.slots[w].phase.Seeding? || s.slots[w].phase.GaveUp?)
    case Close => !s.closed
    case Exit(w) => w < |s.slots| && s.slots[w].Idle? && s.closed && s.queue == []
    case Return => s.closed && !s.returned && forall w :: 0 <= w < |s.slots| ==> s.slots[w].Exited?
  }

  function SetPhase(s: State, w: nat, phase: Phase): State
    requires InPhase(s, w)
  {
    s.(slots := s.slots[w := Busy(s.slots[w].job, phase)])
  }

  /** What one more scanner call leads to. */
  function AfterAttempt(tries: nat, outcome: Result<Report>, cancelled: bool): Phase {
    match outcome
    case Ok(rep) => Fetched(tries + 1, rep)
    case Err => if cancelled || tries + 1 == ATTEMPTS then GaveUp(tries + 1) else Scanning(tries + 1)
  }

  function Entry(job: Job, ok: bool, at: int): AuditEntry {
    AuditEntry(Stamp(at), job.subject, job.tenant, "scan.trigger", Plain(job.clusterId),
      if ok then "allowed" else "failed")
  }

  function Apply(s: State, step: Step): State
    requires Enabled(s, step)
  {
    match step
    case Test(r, job) =>
      // once `Close` has returned the pool is gone, and the API scans inline
      if s.returned then s else s.(requests := s.requests[r := Tested(job)])
    case Fetch(r) =>
      if s.returned then s.(requests := s.requests - {r}, panics := s.panics.(missing := s.panics.missing + 1))
      else s.(requests := s.requests[r := Holding(s.requests[r].job)])
    case Send(r) =>
      var job, rest := s.requests[r].job, s.requests - {r};
      // a send on a closed channel panics whether or not there is room
      if s.closed then s.(requests := rest, panics := s.panics.(closed := s.panics.closed + 1))
      else if |s.queue| < s.capacity
      then s.(requests := rest, queue := s.queue + [job], accepted := s.accepted + [job])
      else s.(requests := rest)
    case Take(w) =>
      s.(queue := s.queue[1..], slots := s.slots[w := Busy(s.queue[0], Scanning(0))])
    case Attempt(w, outcome, cancelled) =>
      SetPhase(s, w, AfterAttempt(s.slots[w].phase.tries, outcome, cancelled))
    case Record(w, at) =>
      var job, phase := s.slots[w].job, s.slots[w].phase;
      SetPhase(s, w, Stored(phase.tries, phase.rep)).(
        store := RecordScan(s.store, job.tenant, job.clusterId, job.scanId, phase.rep, Stamp(at)),
        recorded := s.recorded + [job])
    case Seed(w, digest, now) =>
      var job, phase := s.slots[w].job, s.slots[w].phase;
      SetPhase(s, w, Seeding(phase.tries)).(
        store := SeedFindings(digest, s.store, job.tenant, job.clusterId, phase.rep.findings, Stamp(now)))
    case Audited(w, at) =>
      var job, ok := s.slots[w].job, s.slots[w].phase.Seeding?;
      s.(slots := s.slots[w := Idle],
         finished := s.finished + [Finish(job, ok, s.slots[w].phase.tries)],
         audit := Written(s.audit, Entry(job, ok, at)),
         audited := s.audited + [job])
    case Close => s.(closed := true)
    case Exit(w) => s.(slots := s.slots[w := Exited])
    case Return => s.(returned := true)
  }

  // ----- where the jobs are -----

  /** How often a job occurs in a list. */
  function Times(jobs: seq<Job>, j: Job): nat {
    if jobs == [] then 0 else Times(jobs[..|jobs| - 1], j) + (if jobs[|jobs| - 1] == j then 1 else 0)
  }

  function One(slot: Slot, j: Job): nat {
    if slot.Busy? && slot.job == j then 1 else 0
  }

  function OneRecorded(slot: Slot, j: Job): nat {
    if slot.Busy? && slot.job == j && slot.phase.HasRecorded() then 1 else 0
  }

  /** How many workers are running a job. */
  function Running(slots: seq<Slot>, j: Job): nat {
    if slots == [] then 0 else Running(slots[..|slots| - 1], j) + One(slots[|slots| - 1], j)
  }

  /** How many workers are past storing it. */
  function RunningRecorded(slots: seq<Slot>, j: Job): nat {
    if slots == [] then 0 else RunningRecorded(slots[..|slots| - 1], j) + OneRecorded(slots[|slots| - 1], j)
  }

  lemma {:induction false} SlotUpdate(slots: seq<Slot>, w: nat, slot: Slot, j: Job)
    requires w < |slots|
    ensures Running(slots[w := slot], j) + One(slots[w], j) == Running(slots, j) + One(slot, j)
    ensures RunningRecorded(slots[w := slot], j) + OneRecorded(slots[w], j)
      == RunningRecorded(slots, j) + OneRecorded(slot, j)
  {
    hide One, OneRecorded;
    var slots' := slots[w := slot];
    var n := |slots| - 1;
    if w < n {
      SlotUpdate(slots[..n], w, slot, j);
      assert slots'[..n] == slots[..n][w := slot];
    } else {
      assert slots'[..n] == slots[..n];
    }
  }

  lemma {:induction false} TimesConcat(a: seq<Job>, b: seq<Job>, j: Job)
    ensures Times(a + b, j) == Times(a, j) + Times(b, j)
  {
    if b == [] {
      assert a + b == a;
    } else {
      TimesConcat(a, b[..|b| - 1], j);
      assert (a + b)[..|a + b| - 1] == a + b[..|b| - 1];
    }
  }

  lemma TimesOne(x: Job, j: Job)
    ensures Times([x], j) == if x == j then 1 else 0
  {
    assert Times([x][..0], j) == 0;
  }

  function JobsOf(fs: seq<Finish>): seq<Job> {
    if fs == [] then [] else JobsOf(fs[..|fs| - 1]) + [fs[|fs| - 1].job]
  }

  function SucceededJobs(fs: seq<Finish>): seq<Job> {
    if fs == [] then []
    else SucceededJobs(fs[..|fs| - 1]) + (if fs[|fs| - 1].ok then [fs[|fs| - 1].job] else [])
  }

  lemma FinishStep(fs: seq<Finish>, f: Finish)
    ensures JobsOf(fs + [f]) == JobsOf(fs) + [f.job]
    ensures SucceededJobs(fs + [f]) == SucceededJobs(fs) + (if f.ok then [f.job] else [])
  {
    assert (fs + [f])[..|fs|] == fs;
  }

  // ----- what the store and the log hold -----

  function ScansIn(s: Store, t: string, c: string): nat {
    if t in s.tenants && c in s.tenants[t].clusters then |s.tenants[t].clusters[c].scans| else 0
  }

  function SnapshotsIn(s: Store, t: string, c: string): nat {
    if t in s.tenants && c in s.tenants[t].clusters then |s.tenants[t].clusters[c].history| else 0
  }

  function CountFor(jobs: seq<Job>, t: string, c: string): nat {
    if jobs == [] then 0
    else CountFor(jobs[..|jobs| - 1], t, c)
         + (if jobs[|jobs| - 1].tenant == t && jobs[|jobs| - 1].clusterId == c then 1 else 0)
  }

  function CountTenant(jobs: seq<Job>, t: string): nat {
    if jobs == [] then 0
    else CountTenant(jobs[..|jobs| - 1], t) + (if jobs[|jobs| - 1].tenant == t then 1 else 0)
  }

  /** Recording adds exactly one scan and one snapshot, to that cluster only. */
  lemma RecordAddsOne(s: Store, job: Job, rep: Report, at: int, t: string, c: string)
    ensures var s' := RecordScan(s, job.tenant, job.clusterId, job.scanId, rep, at);
      var added := if job.tenant == t && job.clusterId == c then 1 else 0;
      ScansIn(s', t, c) == ScansIn(s, t, c) + added && SnapshotsIn(s', t, c) == SnapshotsIn(s, t, c) + added
  {
    hide PostureControls;
  }

  lemma CountStep(jobs: seq<Job>, job: Job, t: string, c: string)
    ensures CountFor(jobs + [job], t, c)
      == CountFor(jobs, t, c) + (if job.tenant == t && job.clusterId == c then 1 else 0)
    ensures CountTenant(jobs + [job], t) == CountTenant(jobs, t) + (if job.tenant == t then 1 else 0)
  {
    assert (jobs + [job])[..|jobs|] == jobs;
  }

  // ----- the invariant -----

  /** Every accepted job is queued, running or finished, exactly once. */
  ghost predicate JobsConserved(s: State) {
    && |s.queue| <= s.capacity
    && forall j :: Times(s.accepted, j) == Times(s.queue, j) + Running(s.slots, j) + Times(JobsOf(s.finished), j)
  }

  /** Finished jobs are audited once each; recorded scans are those of successes and of jobs past storing. */
  ghost predicate EffectsConserved(s: State) {
    && (forall j :: Times(s.audited, j) == Times(JobsOf(s.finished), j))
    && (forall j :: Times(s.recorded, j) == Times(SucceededJobs(s.finished), j) + RunningRecorded(s.slots, j))
  }

  ghost predicate StoreMatches(s: State) {
    && (forall t, c :: ScansIn(s.store, t, c) == CountFor(s.recorded, t, c))
    && (forall t, c :: SnapshotsIn(s.store, t, c) == CountFor(s.recorded, t, c))
    && (forall t :: |Entries(s.audit, t)| == CountTenant(s.audited, t))
  }

  ghost predicate TriesBounded(s: State) {
    && (forall w :: 0 <= w < |s.slots| && s.slots[w].Busy? ==>
          match s.slots[w].phase
          case Scanning(n) => n < ATTEMPTS
          case _ => 1 <= s.slots[w].phase.tries <= ATTEMPTS)
    && (forall f :: f in s.finished ==> 1 <= f.tries <= ATTEMPTS)
  }

  ghost predicate ShutDown(s: State) {
    && (forall w :: 0 <= w < |s.slots| && s.slots[w].Exited? ==> s.closed && s.queue == [])
    && (s.returned ==> s.closed && forall w :: 0 <= w < |s.slots| ==> s.slots[w].Exited?)
  }

  ghost predicate Inv(s: State) {
    && |s.slots| > 0 && JobsConserved(s) && EffectsConserved(s) && StoreMatches(s) && TriesBounded(s) && ShutDown(s)
  }

  lemma {:induction false} NoneBusy(slots: seq<Slot>, j: Job)
    requires forall w :: 0 <= w < |slots| ==> !slots[w].Busy?
    ensures Running(slots, j) == 0 && RunningRecorded(slots, j) == 0
  {
    if slots != [] { NoneBusy(slots[..|slots| - 1], j); }
  }

  lemma InitialInv(workers: nat, queueSize: int)
    requires workers > 0
    ensures Inv(Initial(workers, queueSize))
  {
    var s := Initial(workers, queueSize);
    forall j ensures Running(s.slots, j) == 0 && RunningRecorded(s.slots, j) == 0 { NoneBusy(s.slots, j); }
  }

  // ----- each step keeps the invariant -----

  lemma JobsStep(s: State, step: Step)
    requires Inv(s) && Enabled(s, step)
    ensures JobsConserved(Apply(s, step)) && EffectsConserved(Apply(s, step))
  {
    hide Running, RunningRecorded, Times, JobsOf, SucceededJobs, StoreMatches, ShutDown, TriesBounded, RecordScan,
      SeedFindings, Written;
    var s' := Apply(s, step);
    forall j
      ensures Times(s'.accepted, j) == Times(s'.queue, j) + Running(s'.slots, j) + Times(JobsOf(s'.finished), j)
      ensures Times(s'.audited, j) == Times(JobsOf(s'.finished), j)
      ensures Times(s'.recorded, j) == Times(SucceededJobs(s'.finished), j) + RunningRecorded(s'.slots, j)
    {
      JobStep(s, step, j);
    }
  }

  /** The accounts of one job. */
  ghost predicate Accounts(s: State, j: Job) {
    && Times(s.accepted, j) == Times(s.queue, j) + Running(s.slots, j) + Times(JobsOf(s.finished), j)
    && Times(s.audited, j) == Times(JobsOf(s.finished), j)
    && Times(s.recorded, j) == Times(SucceededJobs(s.finished), j) + RunningRecorded(s.slots, j)
  }

  lemma JobStep(s: State, step: Step, j: Job)
    requires Accounts(s, j) && Enabled(s, step)
    ensures Accounts(Apply(s, step), j)
  {
    hide Running, RunningRecorded, Times, JobsOf, SucceededJobs, RecordScan, SeedFindings, Written;
    var s' := Apply(s, step);
    match step
    case Test(_, _) =>
    case Fetch(_) =>
    case Send(r) =>
      TimesConcat(s.queue, [s.requests[r].job], j);
      TimesConcat(s.accepted, [s.requests[r].job], j);
    case Take(w) =>
      SlotUpdate(s.slots, w, Busy(s.queue[0], Scanning(0)), j);
      assert s.queue == [s.queue[0]] + s.queue[1..];
      TimesConcat([s.queue[0]], s.queue[1..], j);
      TimesOne(s.queue[0], j);
    case Attempt(w, _, _) => SlotUpdate(s.slots, w, s'.slots[w], j);
    case Record(w, _) =>
      SlotUpdate(s.slots, w, s'.slots[w], j);
      TimesConcat(s.recorded, [s.slots[w].job], j);
      TimesOne(s.slots[w].job, j);
    case Seed(w, _, _) => SlotUpdate(s.slots, w, s'.slots[w], j);
    case Audited(w, _) => AuditJob(s, w, step.at, j);
    case Close =>
    case Exit(w) => SlotUpdate(s.slots, w, Exited, j);
    case Return =>
  }

  lemma AuditJob(s: State, w: nat, at: int, j: Job)
    requires Accounts(s, j) && Enabled(s, Audited(w, at))
    ensures Accounts(Apply(s, Audited(w, at)), j)
  {
    hide Running, RunningRecorded, Times, JobsOf, SucceededJobs, Written;
    var s', job := Apply(s, Audited(w, at)), s.slots[w].job;
    SlotUpdate(s.slots, w, Idle, j);
    FinishStep(s.finished, s'.finished[|s.finished|]);
    TimesConcat(JobsOf(s.finished), [job], j);
    TimesConcat(s.audited, [job], j);
    TimesConcat(SucceededJobs(s.finished), [job], j);
    assert SucceededJobs(s.finished) + [] == SucceededJobs(s.finished);
    TimesOne(job, j);
  }

  lemma StoreStep(s: State, step: Step)
    requires Inv(s) && Enabled(s, step)
    ensures StoreMatches(Apply(s, step))
  {
    hide JobsConserved, EffectsConserved, ShutDown, TriesBounded, CountFor, CountTenant;
    var s' := Apply(s, step);
    if step.Record? {
      var job, rep := s.slots[step.w].job, s.slots[step.w].phase.rep;
      hide ScansIn, SnapshotsIn, RecordScan;
      forall t, c ensures ScansIn(s'.store, t, c) == CountFor(s'.recorded, t, c) == SnapshotsIn(s'.store, t, c) {
        RecordAddsOne(s.store, job, rep, Stamp(step.at), t, c);
        CountStep(s.recorded, job, t, c);
      }
    } else if step.Audited? {
      var job := s.slots[step.w].job;
      forall t ensures |Entries(s'.audit, t)| == CountTenant(s'.audited, t) {
        CountStep(s.audited, job, t, "");
      }
    } else if step.Seed? {
      hide Seeded;
      forall t, c
        ensures ScansIn(s'.store, t, c) == ScansIn(s.store, t, c)
        ensures SnapshotsIn(s'.store, t, c) == SnapshotsIn(s.store, t, c)
      {}
    }
  }

  lemma ShutDownStep(s: State, step: Step)
    requires Inv(s) && Enabled(s, step)
    ensures TriesBounded(Apply(s, step)) && ShutDown(Apply(s, step))
  {
    hide JobsConserved, EffectsConserved, StoreMatches, RecordScan, SeedFindings, Written;
  }

  lemma StepKeeps(s: State, step: Step)
    requires Inv(s) && Enabled(s, step)
    ensures Inv(Apply(s, step))
  {
    hide JobsConserved, EffectsConserved, StoreMatches, TriesBounded, ShutDown, RecordScan, SeedFindings, Written;
    JobsStep(s, step);
    StoreStep(s, step);
    ShutDownStep(s, step);
  }

  // ----- every interleaving -----

  ghost predicate IsRun(workers: nat, queueSize: int, steps: seq<Step>, states: seq<State>)
    requires workers > 0
  {
    && |states| == |steps| + 1 && states[0] == Initial(workers, queueSize)
    && forall i :: 0 <= i < |steps| ==> Enabled(states[i], steps[i]) && states[i + 1] == Apply(states[i], steps[i])
  }

  /** In every reachable state, accepted jobs are queued, running or finished, and the queue fits. */
  lemma {:induction false} EveryRun(workers: nat, queueSize: int, steps: seq<Step>, states: seq<State>, i: nat)
    requires workers > 0 && IsRun(workers, queueSize, steps, states) && i < |states|
    ensures Inv(states[i])
  {
    hide Inv, Apply, Enabled;
    if i == 0 {
      InitialInv(workers, queueSize);
    } else {
      EveryRun(workers, queueSize, steps, states, i - 1);
      StepKeeps(states[i - 1], steps[i - 1]);
    }
  }

  /** Lists with the same jobs, counted, have the same totals. */
  lemma {:induction false} CountSame(a: seq<Job>, b: seq<Job>, t: string, c: string)
    requires forall j :: Times(a, j) == Times(b, j)
    ensures CountFor(a, t, c) == CountFor(b, t, c) && CountTenant(a, t) == CountTenant(b, t)
    decreases |a|
  {
    if a == [] {
      assert |b| > 0 ==> Times(b, b[|b| - 1]) > 0;
    } else {
      var front, last := a[..|a| - 1], a[|a| - 1];
      assert Times(b, last) == Times(a, last) > 0;
      var i := Occurs(b, last);
      var b' := b[..i] + b[i + 1..];
      assert b == b[..i] + ([last] + b[i + 1..]) && b == (b[..i] + [last]) + b[i + 1..];
      forall j ensures Times(front, j) == Times(b', j) {
        assert Times(a, j) == Times(b, j);
        TimesConcat(b[..i], [last] + b[i + 1..], j);
        TimesConcat([last], b[i + 1..], j);
        TimesConcat(b[..i], b[i + 1..], j);
        TimesOne(last, j);
      }
      CountSame(front, b', t, c);
      CountConcat(b[..i], b[i + 1..], t, c);
      CountConcat(b[..i] + [last], b[i + 1..], t, c);
      CountStep(b[..i], last, t, c);
    }
  }

  lemma {:induction false} Occurs(jobs: seq<Job>, j: Job) returns (i: nat)
    requires Times(jobs, j) > 0
    ensures i < |jobs| && jobs[i] == j
  {
    if jobs[|jobs| - 1] == j {
      i := |jobs| - 1;
    } else {
      i := Occurs(jobs[..|jobs| - 1], j);
    }
  }

  lemma {:induction false} CountConcat(a: seq<Job>, b: seq<Job>, t: string, c: string)
    ensures CountFor(a + b, t, c) == CountFor(a, t, c) + CountFor(b, t, c)
    ensures CountTenant(a + b, t) == CountTenant(a, t) + CountTenant(b, t)
  {
    if b == [] {
      assert a + b == a;
    } else {
      CountConcat(a, b[..|b| - 1], t, c);
      assert (a + b)[..|a + b| - 1] == a + b[..|b| - 1];
    }
  }

  /**
   * Once `Close` has returned, every accepted job is finished and audited exactly once, after at
   * most three scanner calls, and each cluster holds one scan and one snapshot per success.
   */
  lemma CloseDrains(workers: nat, queueSize: int, steps: seq<Step>, states: seq<State>, i: nat)
    requires workers > 0 && IsRun(workers, queueSize, steps, states) && i < |states| && states[i].returned
    ensures var s := states[i];
      && (forall j :: Times(s.accepted, j) == Times(JobsOf(s.finished), j) == Times(s.audited, j))
      && (forall f :: f in s.finished ==> 1 <= f.tries <= 3)
      && (forall t, c ::
            ScansIn(s.store, t, c) == SnapshotsIn(s.store, t, c) == CountFor(SucceededJobs(s.finished), t, c))
      && (forall t :: |Entries(s.audit, t)| == CountTenant(s.accepted, t))
  {
    EveryRun(workers, queueSize, steps, states, i);
    var s := states[i];
    hide IsRun, Running, RunningRecorded, CountFor, CountTenant, ScansIn, SnapshotsIn, Times, JobsOf, SucceededJobs;
    forall j ensures Running(s.slots, j) == 0 && RunningRecorded(s.slots, j) == 0 { NoneBusy(s.slots, j); }
    assert s.slots[0].Exited?;
    EmptyTimes();
    assert forall j :: Times(s.recorded, j) == Times(SucceededJobs(s.finished), j);
    forall t, c
      ensures ScansIn(s.store, t, c) == SnapshotsIn(s.store, t, c) == CountFor(SucceededJobs(s.finished), t, c)
    {
      CountSame(s.recorded, SucceededJobs(s.finished), t, c);
    }
    forall t ensures |Entries(s.audit, t)| == CountTenant(s.accepted, t) { CountSame(s.audited, s.accepted, t, ""); }
  }

  lemma EmptyTimes()
    ensures forall j :: Times([], j) == 0
  {
  }

  // ----- requests -----

  /** Before closing, a job is refused only when the queue is full, and refusing changes nothing else. */
  lemma RefusedOnlyWhenFull(s: State, r: nat)
    requires Enabled(s, Send(r)) && !s.closed
    ensures Apply(s, Send(r)).accepted == s.accepted <==> |s.queue| >= s.capacity
    ensures |s.queue| >= s.capacity ==> Apply(s, Send(r)) == s.(requests := s.requests - {r})
  {
  }

  lemma CloseSteps(s: State, step: Step)
    requires Enabled(s, step)
    ensures Apply(s, step).closed <==> s.closed || step == Close
    ensures Apply(s, step).returned <==> s.returned || step == Return
  {
    hide RecordScan, SeedFindings, Written;
  }

  /** The pool is closed, or gone, exactly when `Close` has been entered, or has returned, earlier in the run. */
  lemma {:induction false} ClosedIff(workers: nat, queueSize: int, steps: seq<Step>, states: seq<State>, i: nat)
    requires workers > 0 && IsRun(workers, queueSize, steps, states) && i < |states|
    ensures states[i].closed <==> Close in steps[..i]
    ensures states[i].returned <==> Return in steps[..i]
  {
    hide Apply, Enabled;
    if i > 0 {
      ClosedIff(workers, queueSize, steps, states, i - 1);
      assert steps[..i] == steps[..i - 1] + [steps[i - 1]];
      CloseSteps(states[i - 1], steps[i - 1]);
    }
  }

  /**
   * In every run a step panics exactly when it reads the pool after `Close` returned, or sends after
   * `Close` was entered, even if that is after its return; a panic loses no accepted job.
   */
  lemma PanicsExactly(workers: nat, queueSize: int, steps: seq<Step>, states: seq<State>, i: nat)
    requires workers > 0 && IsRun(workers, queueSize, steps, states) && i < |steps|
    ensures states[i + 1].panics.missing != states[i].panics.missing <==> steps[i].Fetch? && Return in steps[..i]
    ensures states[i + 1].panics.closed != states[i].panics.closed <==> steps[i].Send? && Close in steps[..i]
    ensures states[i + 1].panics != states[i].panics ==>
      states[i + 1] == states[i].(panics := states[i + 1].panics, requests := states[i].requests - {steps[i].r})
  {
    hide Apply, Enabled;
    ClosedIff(workers, queueSize, steps, states, i);
    PanicStep(states[i], steps[i]);
  }

  lemma PanicStep(s: State, step: Step)
    requires Enabled(s, step)
    ensures var s' := Apply(s, step);
      && (s'.panics.missing != s.panics.missing <==> step.Fetch? && s.returned)
      && (s'.panics.closed != s.panics.closed <==> step.Send? && s.closed)
      && (s'.panics != s.panics ==> s' == s.(panics := s'.panics, requests := s.requests - {step.r}))
  {
    hide RecordScan, SeedFindings, Written;
  }

  ghost predicate Leads(s: State, step: Step, s': State) {
    Enabled(s, step) && Apply(s, step) == s'
  }

  lemma RequestLeads(s: State, r: nat, job: Job)
    requires !s.returned
    ensures r !in s.requests ==> Leads(s, Test(r, job), s.(requests := s.requests[r := Tested(job)]))
    ensures r in s.requests && s.requests[r] == Tested(job) ==>
      Leads(s, Fetch(r), s.(requests := s.requests[r := Holding(job)]))
  {
  }

  /** An idle pool of one worker closes in three steps. */
  lemma CloseLeads(s: State)
    requires s.slots == [Idle] && s.queue == [] && !s.closed && !s.returned
    ensures var s1 := s.(closed := true);
      var s2 := s1.(slots := [Exited]);
      Leads(s, Close, s1) && Leads(s1, Exit(0), s2) && Leads(s2, Return, s2.(returned := true))
  {
    assert [Idle][0 := Exited] == [Exited];
  }

  lemma PanicLeads(s: State, r: nat)
    requires s.closed && s.returned && r in s.requests
    ensures s.requests[r].Holding? ==>
      Leads(s, Send(r), s.(requests := s.requests - {r}, panics := s.panics.(closed := s.panics.closed + 1)))
    ensures s.requests[r].Tested? ==>
      Leads(s, Fetch(r), s.(requests := s.requests - {r}, panics := s.panics.(missing := s.panics.missing + 1)))
  {
  }

  /** Two requests that tested the pool in time and panic after `Close` has returned, one in each way. */
  lemma PanicsAfterReturn(queueSize: int, job: Job) returns (steps: seq<Step>, states: seq<State>)
    ensures IsRun(1, queueSize, steps, states) && |steps| == 8
    ensures states[6].returned && states[6].panics == Panics(0, 0) && states[8].panics == Panics(1, 1)
  {
    steps := [Test(0, job), Test(1, job), Fetch(0), Close, Exit(0), Return, Send(0), Fetch(1)];
    var s0 := Initial(1, queueSize);
    assert s0.slots == [Idle];
    hide Apply, Enabled;
    var s1 := s0.(requests := s0.requests[0 := Tested(job)]);
    RequestLeads(s0, 0, job);
    var s2 := s1.(requests := s1.requests[1 := Tested(job)]);
    RequestLeads(s1, 1, job);
    var s3 := s2.(requests := s2.requests[0 := Holding(job)]);
    RequestLeads(s2, 0, job);
    var s4 := s3.(closed := true);
    var s5 := s4.(slots := [Exited]);
    var s6 := s5.(returned := true);
    CloseLeads(s3);
    var s7 := s6.(requests := s6.requests - {0}, panics := Panics(0, 1));
    PanicLeads(s6, 0);
    var s8 := s7.(requests := s7.requests - {1}, panics := Panics(1, 1));
    PanicLeads(s7, 1);
    states := [s0, s1, s2, s3, s4, s5, s6, s7, s8];
    forall i | 0 <= i < 8 ensures Leads(states[i], steps[i], states[i + 1]) {}
  }

  // ----- closing makes progress -----

  /** Steps of work a worker still has with its job, and one to exit. */
  function SlotRank(slot: Slot): nat {
    match slot
    case Exited => 0
    case Idle => 1
    case Busy(_, Scanning(tries)) => if tries < ATTEMPTS then 5 + ATTEMPTS - tries else 5
    case Busy(_, Fetched(_, _)) => 4
    case Busy(_, Stored(_, _)) => 3
    case Busy(_, _) => 2
  }

  function SlotRanks(slots: seq<Slot>): nat {
    if slots == [] then 0 else SlotRanks(slots[..|slots| - 1]) + SlotRank(slots[|slots| - 1])
  }

  /** A bound on the steps left until `Close` returns. */
  function Rank(s: State): nat {
    (5 + ATTEMPTS) * |s.queue| + SlotRanks(s.slots) + if s.returned then 0 else 1
  }

  lemma {:induction false} SlotRanksUpdate(slots: seq<Slot>, w: nat, slot: Slot)
    requires w < |slots|
    ensures SlotRanks(slots[w := slot]) == SlotRanks(slots) - SlotRank(slots[w]) + SlotRank(slot)
  {
    hide SlotRank;
    var n := |slots| - 1;
    if w < n {
      SlotRanksUpdate(slots[..n], w, slot);
      assert slots[w := slot][..n] == slots[..n][w := slot];
    } else {
      assert slots[w := slot][..n] == slots[..n];
    }
  }

  /** After closing, a request leaves the rank alone and every other step lowers it. */
  lemma RankFalls(s: State, step: Step)
    requires Inv(s) && s.closed && Enabled(s, step)
    ensures Apply(s, step).closed
    ensures if IsRequest(step) then Rank(Apply(s, step)) == Rank(s) else Rank(Apply(s, step)) < Rank(s)
  {
    hide JobsConserved, EffectsConserved, StoreMatches, ShutDown, RecordScan, SeedFindings, Written, SlotRanks;
    match step
    case Take(w) => SlotRanksUpdate(s.slots, w, Apply(s, step).slots[w]);
    case Attempt(w, _, _) => SlotRanksUpdate(s.slots, w, Apply(s, step).slots[w]);
    case Record(w, _) => SlotRanksUpdate(s.slots, w, Apply(s, step).slots[w]);
    case Seed(w, _, _) => SlotRanksUpdate(s.slots, w, Apply(s, step).slots[w]);
    case Audited(w, _) => SlotRanksUpdate(s.slots, w, Idle);
    case Exit(w) => SlotRanksUpdate(s.slots, w, Exited);
    case _ =>
  }

  /** A busy worker can always take its next step. */
  function NextStep(s: State, w: nat): Step
    requires InPhase(s, w)
  {
    match s.slots[w].phase
    case Scanning(_) => Attempt(w, Err, false)
    case Fetched(_, _) => Record(w, 0)
    case Stored(_, _) => Seed(w, (text: string) => text, 0)
    case _ => Audited(w, 0)
  }

  /** Between closing and the return of `Close`, some step other than a request is always possible. */
  lemma ClosingNeverStuck(s: State) returns (step: Step)
    requires s.closed && !s.returned
    requires |s.slots| > 0 && ShutDown(s)
    ensures Enabled(s, step) && !IsRequest(step)
  {
    if w :| 0 <= w < |s.slots| && s.slots[w].Busy? {
      step := NextStep(s, w);
    } else if w :| 0 <= w < |s.slots| && s.slots[w].Idle? {
      step := if s.queue == [] then Exit(w) else Take(w);
    } else {
      step := Return;
    }
  }

  /** Steps of the system other than requests. */
  function Work(steps: seq<Step>): nat {
    if steps == [] then 0 else Work(steps[..|steps| - 1]) + if IsRequest(steps[|steps| - 1]) then 0 else 1
  }

  lemma {:induction false} WorkBounded(workers: nat, queueSize: int, steps: seq<Step>, states: seq<State>,
                                       i: nat, j: nat)
    requires workers > 0 && IsRun(workers, queueSize, steps, states) && i <= j < |states| && states[i].closed
    ensures states[j].closed && Work(steps[i..j]) + Rank(states[j]) <= Rank(states[i])
  {
    hide Inv, Rank, Apply, Enabled;
    if i < j {
      WorkBounded(workers, queueSize, steps, states, i, j - 1);
      EveryRun(workers, queueSize, steps, states, j - 1);
      RankFalls(states[j - 1], steps[j - 1]);
      assert steps[i..j][..j - 1 - i] == steps[i..j - 1];
    }
  }

  /**
   * `Close` terminates: from any closed state of any run at most `Rank` further steps other than
   * requests happen, and while it has not returned another one is possible.
   */
  lemma CloseTerminates(workers: nat, queueSize: int, steps: seq<Step>, states: seq<State>, i: nat, j: nat)
    requires workers > 0 && IsRun(workers, queueSize, steps, states) && i <= j < |states| && states[i].closed
    ensures Work(steps[i..j]) <= Rank(states[i])
    ensures states[j].returned || exists step :: Enabled(states[j], step) && !IsRequest(step)
  {
    hide Rank, Enabled;
    WorkBounded(workers, queueSize, steps, states, i, j);
    EveryRun(workers, queueSize, steps, states, j);
    if !states[j].returned {
      var step := ClosingNeverStuck(states[j]);
    }
  }

  // ----- the entry a job leaves -----

  /** A finished job leaves one entry under its tenant, allowed exactly when its scan was stored. */
  lemma JobIsAudited(s: State, w: nat, at: int)
    requires Enabled(s, Audited(w, at))
    ensures var s', job := Apply(s, Audited(w, at)), s.slots[w].job;
      exists e :: Entries(s'.audit, job.tenant) == Entries(s.audit, job.tenant) + [e]
        && e.subject == job.subject && e.action == "scan.trigger" && e.resource == Plain(job.clusterId)
        && (e.result == "allowed" <==> s.slots[w].phase.Seeding?)
        && (e.result == "failed" <==> s.slots[w].phase.GaveUp?)
  {
    var s', job, ok := Apply(s, Audited(w, at)), s.slots[w].job, s.slots[w].phase.Seeding?;
    var e := Entry(job, ok, at);
    assert Entries(s'.audit, job.tenant) == Entries(s.audit, job.tenant) + [e];
    assert "allowed"[0] != "failed"[0];
  }

  /** Storing a job's report makes it its cluster's answer under the job's scan id; seeding tracks its findings. */
  lemma JobIsStored(s: State, w: nat, at: int, digest: string -> string, now: int)
    ensures Enabled(s, Record(w, at)) && s.slots[w].job.clusterId != "" ==>
      var s', job, rep := Apply(s, Record(w, at)), s.slots[w].job, s.slots[w].phase.rep;
      && GetReport(s'.store, job.tenant, job.clusterId) == Some(rep)
      && s'.store.tenants[job.tenant].clusters[job.clusterId].scans[0].id == job.scanId
      && s'.store.tenants[job.tenant].clusters[job.clusterId].scans[0].startedAt == Some(Stamp(at))
    ensures Enabled(s, Seed(w, digest, now)) ==>
      var s', job, rep := Apply(s, Seed(w, digest, now)), s.slots[w].job, s.slots[w].phase.rep;
      forall f :: f in rep.findings ==> GetLifecycle(s'.store, job.tenant, Key(digest, job.clusterId, f)).Some?
  {
    hide PostureControls, Seeded, Key;
    if Enabled(s, Seed(w, digest, now)) {
      var job, rep := s.slots[w].job, s.slots[w].phase.rep;
      SeededRows(digest, RowsOf(s.store, job.tenant), job.clusterId, rep.findings, Stamp(now));
    }
  }
}
