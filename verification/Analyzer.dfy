/**
 * The whole pipeline: detect, chain, comply, summarise, score. The results of the single
 * engines meet here: what a path says, the findings, the posture and the ranking say too.
 */
module Analyzer {
  import opened Common
  import opened Ordering
  import opened Api
  import opened Graph
  import L = Ladder
  import A = Attack
  import C = Checks
  import K = Compliance
  import M = Merge
  import R = Risk
  import D = Detection
  import S = ChainSoundness

  // ----- profiles -----

  const CIS := C.Profile([], [], map[L.KG_EXPOSURE := Medium])

  /** The profile's own name with its contents. */
  function ProfileByName(name: string): Result<(string, C.Profile)> {
    if name == "" || name == "zeal-default" then Ok(("zeal-default", C.ZEAL_DEFAULT))
    else if name == "cis" then Ok(("cis", CIS))
    else Err
  }

  /** Every profile a caller can name runs every check. */
  lemma NamedProfilesRunAll(name: string)
    ensures ProfileByName(name).Ok? <==> name in ["", "zeal-default", "cis"]
    ensures ProfileByName(name).Ok? ==> D.RunsAll(ProfileByName(name).value.1)
  {
  }

  function Runnable(p: C.Profile, checks: seq<C.Check>): set<string> {
    set c | c in checks && p.Includes(c.Id()) :: c.Id()
  }

  method RunnableIDs(p: C.Profile) returns (ids: set<string>)
    ensures ids == Runnable(p, C.REGISTRY)
  {
    hide C.REGISTRY;
    ids := {};
    var checks := C.REGISTRY;
    for i := 0 to |checks|
      invariant ids == Runnable(p, checks[..i])
    {
      assert checks[..i + 1] == checks[..i] + [checks[i]];
      if p.Includes(checks[i].Id()) {
        ids := ids + {checks[i].Id()};
      }
    }
    assert checks[..|checks|] == checks;
  }

  // ----- the pipeline -----

  /** A custom policy: extra findings from the graph; a missing one is skipped. */
  type Extra = Option<Graph -> seq<Finding>>

  function FindingsOf(g: Graph): Extra -> seq<Finding> {
    (e: Extra) => match e case Some(check) => check(g) case None => []
  }

  /** Everything an analysis depends on besides the profile's name. */
  datatype Inputs = Inputs(g: Graph, assumeBreach: bool, packs: seq<K.Pack>, extra: seq<Extra>,
                           other: string -> seq<Finding>, coverage: Coverage)

  function AllFindings(i: Inputs, p: C.Profile): seq<Finding> {
    StableSort(C.FindingLess, C.ScanOf(i.g, p, i.other) + FlatMap(FindingsOf(i.g), i.extra))
  }

  function ReportOf(i: Inputs, name: string, p: C.Profile): Report {
    var findings, paths := AllFindings(i, p), A.Paths(i.g, i.assumeBreach);
    var frameworks := K.EvaluatedAll(i.packs, Runnable(p, C.REGISTRY), K.Fired(findings));
    Report("", "", name, findings, paths, K.Summary(findings, paths, frameworks), frameworks, Some(i.coverage),
           R.Scores(findings, paths))
  }

  function Analysis(i: Inputs, name: string): Result<Report> {
    match ProfileByName(name)
    case Ok(p) => Ok(ReportOf(i, p.0, p.1))
    case Err => Err
  }

  method Analyze(i: Inputs, name: string) returns (rep: Result<Report>)
    ensures rep == Analysis(i, name)
    ensures rep.Ok? ==> Sorted(C.FindingLess, rep.value.findings)
  {
    hide C.REGISTRY, C.ScanOf, A.Paths, StableSort, FlatMap, K.Summary, R.Scores, K.Fired, C.FindingLess;
    var profile := ProfileByName(name);
    if profile.Err? {
      return Err;
    }
    var p := profile.value.1;
    var findings := C.Scan(i.g, p, i.other);
    var custom := RunExtra(i.g, i.extra);
    findings := findings + custom;
    C.FindingLessIsOrder();
    StableSortCorrect(C.FindingLess, findings);
    findings := StableSort(C.FindingLess, findings);
    var paths := A.BuildPaths(i.g, i.assumeBreach);
    var executed := RunnableIDs(p);
    var fired := K.FiredChecks(findings);
    var frameworks := K.EvaluateAll(i.packs, executed, fired);
    var posture := K.Summarize(findings, paths, frameworks);
    var risks := R.Score(findings, paths);
    rep := Ok(Report("", "", profile.value.0, findings, paths, posture, frameworks, Some(i.coverage), risks));
  }

  method RunExtra(g: Graph, extra: seq<Extra>) returns (out: seq<Finding>)
    ensures out == FlatMap(FindingsOf(g), extra)
  {
    hide FlatMap;
    out := [];
    FlatMapEnds(FindingsOf(g), extra);
    for i := 0 to |extra|
      invariant out == FlatMap(FindingsOf(g), extra[..i])
    {
      FlatMapStep(FindingsOf(g), extra, i);
      if extra[i].None? {
        continue;
      }
      out := out + extra[i].value(g);
    }
  }

  // ----- a fleet of analyses sums up to the summary of the fleet -----

  ghost predicate Summarised(r: Report) {
    r.posture == K.Summary(r.findings, r.paths, r.compliance)
  }

  lemma {:induction false} CountsConcat(a: seq<Finding>, b: seq<Finding>)
    ensures K.SeverityCounts(a + b) == M.AddCounts(K.SeverityCounts(a), K.SeverityCounts(b))
  {
    hide M.AddCounts;
    if b == [] {
      assert a + b == a;
      M.AddCountsUnit(K.SeverityCounts(a));
    } else {
      var front, s := b[..|b| - 1], b[|b| - 1].severity;
      CountsConcat(a, front);
      assert (a + b)[..|a + b| - 1] == a + front;
      M.SameCounts(K.SeverityCounts(a + b), M.AddCounts(K.SeverityCounts(a), K.SeverityCounts(b)));
    }
  }

  /** What the posture counts, counted over the concatenation of all reports. */
  lemma {:induction false} TotalsOfContents(reps: seq<Report>)
    requires forall r :: r in reps ==> Summarised(r)
    ensures M.SumOver(M.TotalFindings, reps) == |FlatMap(M.FindingsIn, reps)|
    ensures M.SeverityTotals(reps) == K.SeverityCounts(FlatMap(M.FindingsIn, reps))
    ensures M.SumOver(M.CriticalPaths, reps) == |Filter(K.IsCritical(), FlatMap(M.PathsIn, reps))|
  {
    hide K.SeverityCounts, Filter;
    if reps == [] {
      NothingCounted();
    } else {
      var front, r := reps[..|reps| - 1], reps[|reps| - 1];
      assert r in reps;
      TotalsOfContents(front);
      CountsConcat(FlatMap(M.FindingsIn, front), r.findings);
      FilterConcat(K.IsCritical(), FlatMap(M.PathsIn, front), r.paths);
    }
  }

  lemma NothingCounted()
    ensures K.SeverityCounts([]) == map[] && Filter(K.IsCritical(), []) == []
  {
  }

  lemma RoundingError(x: real)
    ensures x - 1.0 / 20000.0 <= K.Round4(x) <= x + 1.0 / 20000.0
  {
    K.RoundIsNearest(x * 10000.0);
  }

  /**
   * Merging summarised reports gives the summary of everything they contain; only the overall
   * pass rate differs, by at most the rounding the fleet report does not do.
   */
  lemma FleetSummary(reps: seq<Report>)
    requires forall r :: r in reps ==> Summarised(r)
    ensures var m := M.Merged(reps);
      var s := K.Summary(m.findings, m.paths, m.compliance);
      && m.posture == s.(overallPassRate := m.posture.overallPassRate)
      && -1.0 / 20000.0 <= m.posture.overallPassRate - s.overallPassRate <= 1.0 / 20000.0
  {
    var m := M.Merged(reps);
    hide FlatMap, Filter, M.SumOver, M.SeverityTotals, M.MergedFrameworks, M.TopRisks, K.SeverityCounts, K.Round4;
    TotalsOfContents(reps);
    forall r | r in reps ensures M.PostureMatches(r) {}
    M.MergeConserves(reps);
    var assessed, passed: int := m.posture.controlsAssessed, m.posture.controlsAssessed - m.posture.controlsBreached;
    if assessed > 0 { RoundingError(passed as real / assessed as real); }
  }

  // ----- what a path says, the rest of the report says too -----

  /** An analysis is a summarised report whose frameworks balance; so is every fleet of analyses. */
  lemma AnalysesAreSummarised(i: Inputs, name: string)
    requires Analysis(i, name).Ok?
    ensures Summarised(Analysis(i, name).value)
    ensures forall fw :: fw in Analysis(i, name).value.compliance ==> M.Balanced(fw)
  {
    hide K.Summary, R.Scores, A.Paths, AllFindings, C.REGISTRY;
  }

  /** Findings of the scan survive the merge with custom findings and the second sort. */
  lemma ScanIsReported(i: Inputs, p: C.Profile, f: Finding)
    requires f in C.ScanOf(i.g, p, i.other)
    ensures f in AllFindings(i, p)
  {
    hide C.ScanOf, StableSort, FlatMap, C.FindingLess;
    var all := C.ScanOf(i.g, p, i.other) + FlatMap(FindingsOf(i.g), i.extra);
    SameElements(StableSort(C.FindingLess, all), all);
  }

  /** The finding behind a supported hop. */
  lemma HopFinding(g: Graph, w: Workload, scan: seq<Finding>, h: PathHop) returns (f: Finding)
    requires S.Supported(g, w, scan, h)
    ensures f in scan && f.id == h.enabledBy
  {
    hide A.Fronts, S.BindsAccount, S.GrantedToAccount;
    match h.to
    case NetworkReachable =>
      var svc :| svc in g.services && A.Fronts(g, svc, w.Ref()) && D.Fired(scan, h.enabledBy, svc.Ref());
      f :| f in scan && f.id == h.enabledBy;
    case ContainerEscape | NodeAccess | ServiceAccountToken =>
      f :| f in scan && f.id == h.enabledBy;
    case ClusterAdmin =>
      var b :| S.BindsAccount(g, w, b) && D.Fired(scan, h.enabledBy, b.Ref());
      f :| f in scan && f.id == h.enabledBy;
    case SecretRead | PodCreate =>
      var r :| S.GrantedToAccount(g, w, r) && D.Fired(scan, h.enabledBy, r.Ref());
      f :| f in scan && f.id == h.enabledBy;
    case _ =>
      f :| f in scan && f.id == h.enabledBy;
  }

  // ----- every supported hop is ranked and breaches its controls -----

  /** What a workload's path shows about exposure and blast radius, exactly. */
  lemma PathSignals(f: L.Facts)
    ensures var s := R.HopSignals(L.HopsOf(f));
      && (s.internet <==> f.service.Some?) && (s.admin <==> f.automount && f.admin) && (s.node <==> f.escapes)
      && (s.token <==> f.UsableToken())
  {
    hide L.HopsOf, R.HopSignals, L.Outcomes;
    R.HopSignalsMeaning(L.HopsOf(f));
    L.HopsFromInternet(f);
    L.HopsReach(f, ClusterAdmin);
    L.HopsReach(f, NodeAccess);
    L.HopsReach(f, ServiceAccountToken);
    L.HopsReach(f, SecretRead);
    SignalledOutcomes(f);
  }

  lemma SignalledOutcomes(f: L.Facts)
    ensures ClusterAdmin in L.Outcomes(f) <==> f.automount && f.admin
    ensures NodeAccess in L.Outcomes(f) <==> f.escapes
    ensures ServiceAccountToken in L.Outcomes(f) <==> f.UsableToken()
    ensures SecretRead in L.Outcomes(f) ==> f.UsableToken()
  {
  }

  /** The least a check scores for enabling a hop of this workload's path. */
  function PathPoints(f: L.Facts): int {
    R.POINTS_ENABLER
    + (if f.service.Some? then R.POINTS_INTERNET else 0)
    + (if f.automount && f.admin then R.POINTS_ADMIN else if f.escapes then R.POINTS_NODE else R.POINTS_TOKEN)
  }

  /** A finding whose check enables a hop of a reported path scores at least what that path is worth. */
  lemma EnablerScores(f: Finding, findings: seq<Finding>, paths: seq<AttackPath>, p: AttackPath, facts: L.Facts)
    requires p in paths && R.Enables(p.hops, f.id)
    requires var s := R.HopSignals(p.hops);
      && (facts.service.Some? ==> s.internet) && (facts.automount && facts.admin ==> s.admin)
      && (facts.escapes ==> s.node) && (!facts.escapes ==> s.token)
    ensures R.ScoreOf(f, findings, paths).score >= PathPoints(facts)
  {
    hide R.SignalsOf, R.HopSignals, R.Enables, R.Points, R.FactorsOf;
    R.SignalsMeaning(paths, f.id);
    R.PointsAreWeightedSum(f.severity, R.SignalsOf(paths, f.id), |R.Affected(findings, f.id)|);
  }

  /** A workload's path is in the report, under the number it was given. */
  lemma PathReported(g: Graph, w: Workload, assumeBreach: bool) returns (p: AttackPath)
    requires w in g.workloads && A.PathFor(g, w, assumeBreach).Some?
    ensures p in A.Paths(g, assumeBreach) && p.hops == A.PathFor(g, w, assumeBreach).value.hops
  {
    hide A.PathFor, StableSort, FlatMap, A.PathLess;
    var q := A.PathFor(g, w, assumeBreach).value;
    A.PathsMembers(g, assumeBreach, q);
    var sorted := StableSort(A.PathLess, FlatMap(A.PathsOf(g, assumeBreach), g.workloads));
    var k :| 0 <= k < |sorted| && sorted[k] == q;
    p := A.Paths(g, assumeBreach)[k];
  }

  lemma ScoreIsRanked(f: Finding, findings: seq<Finding>, paths: seq<AttackPath>)
    requires f in findings
    ensures R.ScoreOf(f, findings, paths) in R.Scores(findings, paths)
  {
    hide R.ScoreOf, StableSort, FlatMap, R.RiskLess;
    var all := FlatMap(R.Scored(findings, paths), findings);
    SameElements(StableSort(R.RiskLess, all), all);
    FlatMapMembers(R.Scored(findings, paths), findings, R.ScoreOf(f, findings, paths));
  }

  /**
   * Every hop of every path, outside the two exceptions, is backed by a reported finding of the
   * check it cites, and that finding's rank score carries the full worth of the path.
   */
  lemma HopIsRanked(i: Inputs, name: string, w: Workload, h: PathHop)
    requires D.OwnIds(i.other) && S.ShapedByBuild(i.g) && w in i.g.workloads
    ensures var rep, path := Analysis(i, name), A.PathFor(i.g, w, i.assumeBreach);
      rep.Ok? && path.Some? && h in path.value.hops && !S.Unsupported(i.g, w, h.to) ==>
        exists f :: IsRanked(rep.value, f, h.enabledBy, PathPoints(A.FactsOf(i.g, w)))
  {
    hide ReportOf, A.PathFor, S.Unsupported, AllFindings, IsRanked, PathPoints, A.FactsOf, ProfileByName;
    var prof, path := ProfileByName(name), A.PathFor(i.g, w, i.assumeBreach);
    if prof.Ok? && path.Some? && h in path.value.hops && !S.Unsupported(i.g, w, h.to) {
      var f := HopIsBacked(i, name, w, h);
      FindingIsRanked(i, prof.value.0, prof.value.1, w, h, f);
    }
  }

  /** `f` is a reported finding of check `id` that the ranking scores with at least `points`. */
  ghost predicate IsRanked(rep: Report, f: Finding, id: string, points: int) {
    && f in rep.findings && f.id == id
    && exists r :: r in rep.topRisks && r.findingId == id && r.resource == f.resource && r.score >= points
  }

  lemma HopIsBacked(i: Inputs, name: string, w: Workload, h: PathHop) returns (f: Finding)
    requires D.OwnIds(i.other) && S.ShapedByBuild(i.g) && w in i.g.workloads && ProfileByName(name).Ok?
    requires A.PathFor(i.g, w, i.assumeBreach).Some? && h in A.PathFor(i.g, w, i.assumeBreach).value.hops
    requires !S.Unsupported(i.g, w, h.to)
    ensures f in AllFindings(i, ProfileByName(name).value.1) && f.id == h.enabledBy != ""
  {
    hide C.ScanOf, A.PathFor, S.Unsupported, S.Supported, AllFindings, D.RunsAll, C.REGISTRY;
    var p := ProfileByName(name).value.1;
    NamedProfilesRunAll(name);
    S.ChainSound(i.g, p, i.other, w, i.assumeBreach);
    f := HopFinding(i.g, w, C.ScanOf(i.g, p, i.other), h);
    ScanIsReported(i, p, f);
    EnablerIsNamed(i.g, w, i.assumeBreach, h);
  }

  lemma EnablerIsNamed(g: Graph, w: Workload, assumeBreach: bool, h: PathHop)
    requires A.PathFor(g, w, assumeBreach).Some? && h in A.PathFor(g, w, assumeBreach).value.hops
    ensures h.enabledBy != ""
  {
    hide A.HasPrivileged, A.AddsCapFrom, A.MountsEscapePath, A.Escapes, A.AutomountOn, A.Admin, A.Secrets, A.Pods,
      A.ExposingService, HasDefaultDeny, L.Chain, L.SeverityOf, L.Steps, L.Outcomes;
    var f := A.FactsOf(g, w);
    var k :| 0 <= k < |L.HopsOf(f)| && L.HopsOf(f)[k] == h;
    S.HopCites(f, k);
  }

  lemma FindingIsRanked(i: Inputs, name: string, p: C.Profile, w: Workload, h: PathHop, f: Finding)
    requires w in i.g.workloads && A.PathFor(i.g, w, i.assumeBreach).Some?
    requires h in A.PathFor(i.g, w, i.assumeBreach).value.hops && h.enabledBy == f.id != ""
    requires f in AllFindings(i, p)
    ensures IsRanked(ReportOf(i, name, p), f, h.enabledBy, PathPoints(A.FactsOf(i.g, w)))
  {
    hide AllFindings, A.Paths, R.Scores, R.FactorsOf, R.Points, R.HopSignals, A.FactsOf, L.HopsOf, L.SeverityOf,
      PathPoints;
    var findings, paths, facts := AllFindings(i, p), A.Paths(i.g, i.assumeBreach), A.FactsOf(i.g, w);
    var path := PathReported(i.g, w, i.assumeBreach);
    PathSignals(facts);
    L.ClosedForm(facts, w.Ref(), i.assumeBreach);
    EnablerScores(f, findings, paths, path, facts);
    ScoreIsRanked(f, findings, paths);
  }

  /** Every assessed control mapped to a check that fired is reported as breached by that check. */
  lemma FiredCheckBreaches(pack: K.Pack, executed: set<string>, findings: seq<Finding>, c: K.Control, f: Finding)
    requires c in pack.controls && K.IsAssessed(c, executed) && f in findings && f.id in c.mapsTo
    ensures exists b :: (b in K.Evaluated(pack, executed, K.Fired(findings)).breaches
                         && b.controlId == c.id && f.id in b.findings)
  {
    hide FlatMap, Filter, StableSort, K.Rate, K.IsAssessed;
    var fired := K.Fired(findings);
    var off := K.Offending(c, fired);
    FilterMembers(K.FiredIn(fired), c.mapsTo, f.id);
    FilterMembers(K.AssessedWith(executed), pack.controls, c);
    var b := K.BreachOf(c, fired);
    SameElements(b.findings, off);
    assert b in K.BreachesWith(fired)(c);
    FlatMapMembers(K.BreachesWith(fired), K.AssessedControls(pack, executed), b);
  }

  // ----- a clean report is clean throughout -----

  lemma CleanPack(pack: K.Pack, executed: set<string>)
    ensures var r := K.Evaluated(pack, executed, {});
      r.breaches == [] && r.breached == 0 && r.passed == r.assessed && (r.assessed > 0 ==> r.passRate == 1.0)
  {
    hide Filter, K.IsAssessed, K.Rate;
    NothingBreached(K.AssessedControls(pack, executed));
    var n := |K.AssessedControls(pack, executed)|;
    if n > 0 { K.RateExtremes(n, n); }
  }

  lemma {:induction false} NothingBreached(cs: seq<K.Control>)
    ensures FlatMap(K.BreachesWith({}), cs) == []
  {
    if cs != [] {
      NothingBreached(cs[..|cs| - 1]);
      var off := K.Offending(cs[|cs| - 1], {});
      if off != [] { FilterMembers(K.FiredIn({}), cs[|cs| - 1].mapsTo, off[0]); }
    }
  }

  /** No findings: no path, no risk, no breach, and full marks from every framework with assessed controls. */
  lemma CleanReport(i: Inputs, name: string)
    requires Analysis(i, name).Ok? && Analysis(i, name).value.findings == []
    ensures var rep := Analysis(i, name).value;
      && rep.paths == [] && rep.topRisks == [] && rep.posture.criticalPaths == 0 && rep.posture.controlsBreached == 0
      && forall fw :: fw in rep.compliance ==>
           fw.breaches == [] && fw.passed == fw.assessed && (fw.assessed > 0 ==> fw.passRate == 1.0)
  {
    hide C.ScanOf, C.REGISTRY, K.Evaluated, StableSort, FlatMap, C.FindingLess, D.RunsAll;
    var prof := ProfileByName(name).value;
    var all := C.ScanOf(i.g, prof.1, i.other) + FlatMap(FindingsOf(i.g), i.extra);
    assert |StableSort(C.FindingLess, all)| == |all|;
    NamedProfilesRunAll(name);
    AllChecksClean(i.g, prof.1, i.other, i.assumeBreach);
    var executed := Runnable(prof.1, C.REGISTRY);
    assert K.Fired([]) == {};
    forall j | 0 <= j < |i.packs|
      ensures var r := K.Evaluated(i.packs[j], executed, {});
        r.breaches == [] && r.breached == 0 && r.passed == r.assessed && (r.assessed > 0 ==> r.passRate == 1.0)
    {
      CleanPack(i.packs[j], executed);
    }
    NoBreachesSum(K.EvaluatedAll(i.packs, executed, {}));
    assert R.Scores([], []) == [] by { NothingRanked(); }
  }

  lemma AllChecksClean(g: Graph, p: C.Profile, other: string -> seq<Finding>, assumeBreach: bool)
    requires D.RunsAll(p) && C.ScanOf(g, p, other) == []
    ensures A.Paths(g, assumeBreach) == []
  {
    hide D.Runs, D.RunsAll, C.ScanOf, A.Paths;
    D.CheckRuns(p, C.Privileged);
    D.CheckRuns(p, C.HostPath);
    D.CheckRuns(p, C.DangerousCaps);
    D.CheckRuns(p, C.Automount);
    S.CleanScanNoPath(g, p, other, assumeBreach);
  }

  lemma NothingRanked()
    ensures R.Scores([], []) == []
  {
  }

  lemma {:induction false} NoBreachesSum(fws: seq<FrameworkResult>)
    requires forall fw :: fw in fws ==> fw.breached == 0
    ensures SumBreached(fws) == 0
  {
    if fws != [] {
      assert fws[|fws| - 1] in fws;
      NoBreachesSum(fws[..|fws| - 1]);
    }
  }

  // ----- a framework reported once keeps its rate -----

  ghost predicate ReportedOnce(fws: seq<FrameworkResult>, fw: FrameworkResult) {
    exists i :: 0 <= i < |fws| && fws[i] == fw
      && forall j :: 0 <= j < |fws| && j != i ==> fws[j].framework != fw.framework
  }

  lemma {:induction false} NotReported(fws: seq<FrameworkResult>, name: string)
    requires forall fw :: fw in fws ==> fw.framework != name
    ensures M.Total(fws, name) == None
  {
    if fws != [] { NotReported(fws[..|fws| - 1], name); }
  }

  lemma {:induction false} TotalOfOne(fws: seq<FrameworkResult>, fw: FrameworkResult)
    requires ReportedOnce(fws, fw)
    ensures M.Total(fws, fw.framework) == Some(fw)
  {
    var i :| 0 <= i < |fws| && fws[i] == fw
      && forall j :: 0 <= j < |fws| && j != i ==> fws[j].framework != fw.framework;
    var front := fws[..|fws| - 1];
    if i == |fws| - 1 {
      NotReported(front, fw.framework);
    } else {
      assert front[i] == fw;
      TotalOfOne(front, fw);
    }
  }

  /** An evaluated framework that only one cluster reports keeps its counts, and its rate to within 1/20000. */
  lemma OnceKeepsRate(reps: seq<Report>, pack: K.Pack, executed: set<string>, fired: set<string>)
    requires ReportedOnce(FlatMap(M.FrameworksIn, reps), K.Evaluated(pack, executed, fired))
    ensures var own := K.Evaluated(pack, executed, fired);
      exists fw :: fw in M.Merged(reps).compliance
        && fw == own.(passRate := fw.passRate)
        && -1.0 / 20000.0 <= fw.passRate - own.passRate <= 1.0 / 20000.0
  {
    hide FlatMap, K.AssessedControls, K.Breaches, K.Round4;
    var fws, own := FlatMap(M.FrameworksIn, reps), K.Evaluated(pack, executed, fired);
    TotalOfOne(fws, own);
    M.FoldMeetsSpec(fws);
    M.TotalKnown(fws, own.framework);
    var i :| 0 <= i < |M.FirstSeen(fws)| && M.FirstSeen(fws)[i] == own.framework;
    var merged := M.Merged(reps).compliance;
    assert merged[i] == M.WithRate(own);
    if own.assessed > 0 { RoundingError(own.passed as real / own.assessed as real); }
    assert merged[i] in merged;
  }

  /** Under the cis profile an exposed service is always a medium finding, whatever it fronts. */
  lemma CisFlattensExposure(i: Inputs, f: Finding)
    requires D.OwnIds(i.other) && f in C.ScanOf(i.g, CIS, i.other) && f.id == "KG-018"
    ensures f.severity == Medium
  {
    hide C.ScanOf, C.Findings;
    var c, f0 := C.ScanOrigin(i.g, CIS, i.other, f);
    D.CheckLabels(i.g, i.other, c);
  }

  // ----- an analysis, answer by answer -----

  /** A report names the profile it used, and lists the scan's findings and every custom policy's. */
  lemma AnalysisFindings(i: Inputs, name: string, f: Finding)
    requires Analysis(i, name).Ok?
    ensures var rep := Analysis(i, name).value;
      && rep.profile == (if name == "cis" then "cis" else "zeal-default") && rep.coverage == Some(i.coverage)
      && (f in rep.findings <==>
            || f in C.ScanOf(i.g, ProfileByName(name).value.1, i.other)
            || exists e :: e in i.extra && e.Some? && f in e.value(i.g))
  {
    hide C.ScanOf, StableSort, FlatMap, C.FindingLess, K.Summary, R.Scores, A.Paths, C.REGISTRY, K.Fired;
    var scan := C.ScanOf(i.g, ProfileByName(name).value.1, i.other);
    var all := scan + FlatMap(FindingsOf(i.g), i.extra);
    SameElements(StableSort(C.FindingLess, all), all);
    FlatMapMembers(FindingsOf(i.g), i.extra, f);
  }

  /** In a report, every assessable control of a pack mapped to registered checks is breached by each that fired. */
  lemma AnalysisBreaches(i: Inputs, name: string, j: nat, c: K.Control, f: Finding)
    requires Analysis(i, name).Ok? && j < |i.packs| && c in i.packs[j].controls && c.assessable
    requires forall id :: id in c.mapsTo ==> exists k :: k in C.REGISTRY && k.Id() == id
    requires f in Analysis(i, name).value.findings && f.id in c.mapsTo
    ensures var rep := Analysis(i, name).value;
      && |rep.compliance| == |i.packs| && rep.compliance[j].framework == i.packs[j].title
      && exists b :: b in rep.compliance[j].breaches && b.controlId == c.id && f.id in b.findings
  {
    hide C.REGISTRY, AllFindings, K.Summary, R.Scores, A.Paths, K.AssessedControls, K.Breaches, D.RunsAll;
    var p, findings := ProfileByName(name).value.1, Analysis(i, name).value.findings;
    NamedProfilesRunAll(name);
    var executed := Runnable(p, C.REGISTRY);
    AllRunnable(p, c);
    FiredCheckBreaches(i.packs[j], executed, findings, c, f);
  }

  lemma AllRunnable(p: C.Profile, c: K.Control)
    requires D.RunsAll(p) && c.assessable
    requires forall id :: id in c.mapsTo ==> exists k :: k in C.REGISTRY && k.Id() == id
    ensures K.IsAssessed(c, Runnable(p, C.REGISTRY))
  {
    hide C.REGISTRY;
    forall id | id in c.mapsTo ensures id in Runnable(p, C.REGISTRY) {
      var k :| k in C.REGISTRY && k.Id() == id;
    }
  }
}
