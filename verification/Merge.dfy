/**
 * `MergeReports`: folds per-cluster reports into one fleet report, keeping an index from
 * framework name to position. The index-keeping loop is proved against a fold, the fold
 * against a per-framework specification, and the merge is associative and conserving.
 */
module Merge {
  import opened Common
  import opened Ordering
  import opened Api
  import R = Risk

  // ----- severity counts -----

  function AddCounts(a: map<Severity, nat>, b: map<Severity, nat>): (r: map<Severity, nat>)
    ensures r.Keys == a.Keys + b.Keys
    ensures forall s :: Count(r, s) == Count(a, s) + Count(b, s)
  {
    map s | s in a.Keys + b.Keys :: Count(a, s) + Count(b, s)
  }

  lemma SameCounts(a: map<Severity, nat>, b: map<Severity, nat>)
    requires a.Keys == b.Keys && forall s :: Count(a, s) == Count(b, s)
    ensures a == b
  {
    forall s | s in a ensures a[s] == b[s] { assert Count(a, s) == Count(b, s); }
  }

  function SeverityTotals(reps: seq<Report>): map<Severity, nat> {
    if reps == [] then map[]
    else AddCounts(SeverityTotals(reps[..|reps| - 1]), reps[|reps| - 1].posture.bySeverity)
  }

  /** `acc` with the counts of `m` added for every key outside `todo`. */
  ghost predicate PartlyAdded(r: map<Severity, nat>, acc: map<Severity, nat>, m: map<Severity, nat>,
                              todo: set<Severity>) {
    && todo <= m.Keys
    && r.Keys + todo == acc.Keys + m.Keys
    && forall s :: Count(r, s) == if s in todo then Count(acc, s) else Count(acc, s) + Count(m, s)
  }

  lemma AddOne(r: map<Severity, nat>, acc: map<Severity, nat>, m: map<Severity, nat>, todo: set<Severity>, s: Severity)
    requires PartlyAdded(r, acc, m, todo) && s in todo
    ensures PartlyAdded(r[s := Count(r, s) + m[s]], acc, m, todo - {s})
  {
  }

  lemma AllAdded(r: map<Severity, nat>, acc: map<Severity, nat>, m: map<Severity, nat>)
    requires PartlyAdded(r, acc, m, {})
    ensures r == AddCounts(acc, m)
  {
  }

  /** Go ranges over the map in an order nobody controls. */
  method AddSeverities(acc: map<Severity, nat>, m: map<Severity, nat>) returns (r: map<Severity, nat>)
    ensures r == AddCounts(acc, m)
  {
    r := acc;
    var todo := m.Keys;
    while todo != {}
      invariant PartlyAdded(r, acc, m, todo)
      decreases todo
    {
      hide Count, AddCounts;
      var s :| s in todo;
      AddOne(r, acc, m, todo, s);
      r := r[s := Count(r, s) + m[s]];
      todo := todo - {s};
    }
    AllAdded(r, acc, m);
  }

  lemma AddCountsAssociative(a: map<Severity, nat>, b: map<Severity, nat>, c: map<Severity, nat>)
    ensures AddCounts(AddCounts(a, b), c) == AddCounts(a, AddCounts(b, c))
  {
    hide AddCounts;
    SameCounts(AddCounts(AddCounts(a, b), c), AddCounts(a, AddCounts(b, c)));
  }

  lemma AddCountsUnit(a: map<Severity, nat>)
    ensures AddCounts(a, map[]) == a == AddCounts(map[], a)
  {
  }

  lemma {:induction false} SeverityTotalsConcat(a: seq<Report>, b: seq<Report>)
    ensures SeverityTotals(a + b) == AddCounts(SeverityTotals(a), SeverityTotals(b))
  {
    if b == [] {
      assert a + b == a;
      AddCountsUnit(SeverityTotals(a));
    } else {
      var front, last := b[..|b| - 1], b[|b| - 1];
      SeverityTotalsConcat(a, front);
      assert (a + b)[..|a + b| - 1] == a + front;
      AddCountsAssociative(SeverityTotals(a), SeverityTotals(front), last.posture.bySeverity);
    }
  }

  // ----- frameworks -----

  /** The first result keeps its identity; counts add up and breaches are appended. */
  function Combine(a: FrameworkResult, b: FrameworkResult): FrameworkResult {
    a.(assessed := a.assessed + b.assessed, breached := a.breached + b.breached, passed := a.passed + b.passed,
       breaches := a.breaches + b.breaches)
  }

  lemma CombineAssociative(a: FrameworkResult, b: FrameworkResult, c: FrameworkResult)
    ensures Combine(Combine(a, b), c) == Combine(a, Combine(b, c))
  {
  }

  function IndexOf(acc: seq<FrameworkResult>, name: string): (r: Option<nat>)
    ensures r.Some? ==> r.value < |acc| && acc[r.value].framework == name
    ensures r.None? ==> forall i :: 0 <= i < |acc| ==> acc[i].framework != name
  {
    if acc == [] then None
    else if acc[|acc| - 1].framework == name then Some(|acc| - 1)
    else IndexOf(acc[..|acc| - 1], name)
  }

  function AddFramework(acc: seq<FrameworkResult>, fw: FrameworkResult): seq<FrameworkResult> {
    match IndexOf(acc, fw.framework)
    case Some(i) => acc[i := Combine(acc[i], fw)]
    case None => acc + [fw]
  }

  function AddFrameworks(acc: seq<FrameworkResult>, fws: seq<FrameworkResult>): seq<FrameworkResult> {
    if fws == [] then acc else AddFramework(AddFrameworks(acc, fws[..|fws| - 1]), fws[|fws| - 1])
  }

  /** Recomputes the pass rate; without assessed controls the rate is left alone. */
  function WithRate(fw: FrameworkResult): FrameworkResult {
    if fw.assessed > 0 then fw.(passRate := fw.passed as real / fw.assessed as real) else fw
  }

  function WithRates(fws: seq<FrameworkResult>): (r: seq<FrameworkResult>)
    ensures |r| == |fws|
    ensures forall i :: 0 <= i < |r| ==> r[i] == WithRate(fws[i])
  {
    seq(|fws|, i requires 0 <= i < |fws| => WithRate(fws[i]))
  }

  // ----- the specification, framework by framework -----

  /** Framework names in the order they first appear. */
  function FirstSeen(fws: seq<FrameworkResult>): seq<string> {
    if fws == [] then []
    else
      var front, name := FirstSeen(fws[..|fws| - 1]), fws[|fws| - 1].framework;
      if name in front then front else front + [name]
  }

  function CombineOption(a: Option<FrameworkResult>, b: Option<FrameworkResult>): Option<FrameworkResult> {
    match (a, b)
    case (None, _) => b
    case (_, None) => a
    case (Some(x), Some(y)) => Some(Combine(x, y))
  }

  lemma CombineOptionAssociative(a: Option<FrameworkResult>, b: Option<FrameworkResult>, c: Option<FrameworkResult>)
    ensures CombineOption(CombineOption(a, b), c) == CombineOption(a, CombineOption(b, c))
  {
    if a.Some? && b.Some? && c.Some? { CombineAssociative(a.value, b.value, c.value); }
  }

  /** Everything reported about one framework, combined in order. */
  function Total(fws: seq<FrameworkResult>, name: string): Option<FrameworkResult> {
    if fws == [] then None
    else
      var last := fws[|fws| - 1];
      CombineOption(Total(fws[..|fws| - 1], name), if last.framework == name then Some(last) else None)
  }

  ghost predicate Totals(acc: seq<FrameworkResult>, fws: seq<FrameworkResult>) {
    && |acc| == |FirstSeen(fws)|
    && forall i :: 0 <= i < |acc| ==>
         acc[i].framework == FirstSeen(fws)[i] && Total(fws, acc[i].framework) == Some(acc[i])
  }

  lemma {:induction false} FirstSeenDistinct(fws: seq<FrameworkResult>)
    ensures NoDuplicates(FirstSeen(fws))
  {
    if fws != [] { FirstSeenDistinct(fws[..|fws| - 1]); }
  }

  lemma {:induction false} TotalKnown(fws: seq<FrameworkResult>, name: string)
    ensures Total(fws, name).Some? <==> name in FirstSeen(fws)
    ensures Total(fws, name).Some? ==> Total(fws, name).value.framework == name
  {
    if fws != [] { TotalKnown(fws[..|fws| - 1], name); }
  }

  /** One more result keeps the list equal to its specification. */
  lemma TotalsStep(acc: seq<FrameworkResult>, fws: seq<FrameworkResult>, fw: FrameworkResult)
    requires Totals(acc, fws)
    ensures Totals(AddFramework(acc, fw), fws + [fw])
  {
    var all := fws + [fw];
    assert all[..|fws|] == fws;
    FirstSeenDistinct(fws);
    TotalKnown(fws, fw.framework);
    var acc' := AddFramework(acc, fw);
    forall i | 0 <= i < |acc'|
      ensures acc'[i].framework == FirstSeen(all)[i] && Total(all, acc'[i].framework) == Some(acc'[i])
    {
      if i < |acc| { assert acc[i].framework == FirstSeen(fws)[i]; }
    }
    if IndexOf(acc, fw.framework).None? {
      forall k | 0 <= k < |FirstSeen(fws)| ensures FirstSeen(fws)[k] != fw.framework {
        assert acc[k].framework == FirstSeen(fws)[k];
      }
    }
  }

  /** The merged list: each framework once, in first-seen order, with its combined result. */
  lemma {:induction false} FoldMeetsSpec(fws: seq<FrameworkResult>)
    ensures Totals(AddFrameworks([], fws), fws)
  {
    hide Totals, FirstSeen, Total, AddFramework;
    if fws == [] {
      NothingSeen();
    } else {
      FoldMeetsSpec(fws[..|fws| - 1]);
      TotalsStep(AddFrameworks([], fws[..|fws| - 1]), fws[..|fws| - 1], fws[|fws| - 1]);
      assert fws == fws[..|fws| - 1] + [fws[|fws| - 1]];
    }
  }

  lemma NothingSeen()
    ensures Totals([], [])
  {
  }

  // ----- merging merges -----

  lemma {:induction false} TotalConcat(a: seq<FrameworkResult>, b: seq<FrameworkResult>, name: string)
    ensures Total(a + b, name) == CombineOption(Total(a, name), Total(b, name))
  {
    if b == [] {
      assert a + b == a;
    } else {
      var front := b[..|b| - 1];
      TotalConcat(a, front, name);
      assert (a + b)[..|a + b| - 1] == a + front;
      var last := b[|b| - 1];
      CombineOptionAssociative(Total(a, name), Total(front, name), if last.framework == name then Some(last) else None);
    }
  }

  function AddNew(xs: seq<string>, ys: seq<string>): seq<string> {
    if ys == [] then xs
    else
      var front := AddNew(xs, ys[..|ys| - 1]);
      if ys[|ys| - 1] in front then front else front + [ys[|ys| - 1]]
  }

  lemma {:induction false} AddNewMembers(xs: seq<string>, ys: seq<string>, n: string)
    ensures n in AddNew(xs, ys) <==> n in xs || n in ys
  {
    if ys != [] {
      AddNewMembers(xs, ys[..|ys| - 1], n);
      assert ys == ys[..|ys| - 1] + [ys[|ys| - 1]];
    }
  }

  lemma AddNewLast(xs: seq<string>, ys: seq<string>, n: string)
    ensures AddNew(xs, ys + [n]) == if n in AddNew(xs, ys) then AddNew(xs, ys) else AddNew(xs, ys) + [n]
  {
    assert (ys + [n])[..|ys|] == ys;
  }

  lemma FirstSeenLast(fws: seq<FrameworkResult>, fw: FrameworkResult)
    ensures FirstSeen(fws + [fw])
      == if fw.framework in FirstSeen(fws) then FirstSeen(fws) else FirstSeen(fws) + [fw.framework]
  {
    assert (fws + [fw])[..|fws|] == fws;
  }

  lemma {:induction false} FirstSeenConcat(a: seq<FrameworkResult>, b: seq<FrameworkResult>)
    ensures FirstSeen(a + b) == AddNew(FirstSeen(a), FirstSeen(b))
  {
    if b == [] {
      assert a + b == a;
    } else {
      hide FirstSeen, AddNew;
      var front, last := b[..|b| - 1], b[|b| - 1];
      FirstSeenConcat(a, front);
      assert b == front + [last] && a + b == (a + front) + [last];
      FirstSeenLast(front, last);
      FirstSeenLast(a + front, last);
      AddNewMembers(FirstSeen(a), FirstSeen(front), last.framework);
      AddNewLast(FirstSeen(a), FirstSeen(front), last.framework);
    }
  }

  function RateOption(o: Option<FrameworkResult>): Option<FrameworkResult> {
    match o case Some(fw) => Some(WithRate(fw)) case None => None
  }

  /** A list with one entry per framework is its own summary. */
  lemma {:induction false} SummaryOfDistinct(ms: seq<FrameworkResult>, names: seq<string>)
    requires |ms| == |names| && NoDuplicates(names)
    requires forall i :: 0 <= i < |ms| ==> ms[i].framework == names[i]
    ensures FirstSeen(ms) == names
    ensures forall i :: 0 <= i < |ms| ==> Total(ms, names[i]) == Some(ms[i])
    ensures forall n :: n !in names ==> Total(ms, n) == None
  {
    if ms != [] {
      var front, fnames := ms[..|ms| - 1], names[..|ms| - 1];
      SummaryOfDistinct(front, fnames);
      assert names == fnames + [names[|ms| - 1]];
      assert names[|ms| - 1] !in fnames;
    }
  }

  function MergedFrameworks(fws: seq<FrameworkResult>): seq<FrameworkResult> {
    WithRates(AddFrameworks([], fws))
  }

  /** What a merge knows about each framework. */
  lemma MergedSummary(fws: seq<FrameworkResult>, name: string)
    ensures FirstSeen(MergedFrameworks(fws)) == FirstSeen(fws)
    ensures Total(MergedFrameworks(fws), name) == RateOption(Total(fws, name))
  {
    FoldMeetsSpec(fws);
    FirstSeenDistinct(fws);
    var ms := MergedFrameworks(fws);
    SummaryOfDistinct(ms, FirstSeen(fws));
    TotalKnown(fws, name);
    if name in FirstSeen(fws) {
      var i :| 0 <= i < |FirstSeen(fws)| && FirstSeen(fws)[i] == name;
      assert ms[i] == WithRate(AddFrameworks([], fws)[i]);
    }
  }

  lemma RatesCombine(a: Option<FrameworkResult>, b: Option<FrameworkResult>)
    ensures RateOption(CombineOption(RateOption(a), RateOption(b))) == RateOption(CombineOption(a, b))
  {
  }

  lemma FrameworksAssociative(a: seq<FrameworkResult>, b: seq<FrameworkResult>)
    ensures MergedFrameworks(MergedFrameworks(a) + MergedFrameworks(b)) == MergedFrameworks(a + b)
  {
    hide AddFrameworks, Total, FirstSeen;
    var ma, mb := MergedFrameworks(a), MergedFrameworks(b);
    var l, r := AddFrameworks([], ma + mb), AddFrameworks([], a + b);
    FoldMeetsSpec(ma + mb);
    FoldMeetsSpec(a + b);
    FirstSeenConcat(ma, mb);
    FirstSeenConcat(a, b);
    MergedSummary(a, "");
    MergedSummary(b, "");
    forall i | 0 <= i < |l| ensures WithRate(l[i]) == WithRate(r[i]) {
      var n := l[i].framework;
      assert r[i].framework == n;
      MergedSummary(a, n);
      MergedSummary(b, n);
      TotalConcat(ma, mb, n);
      TotalConcat(a, b, n);
      RatesCombine(Total(a, n), Total(b, n));
      assert RateOption(Some(l[i])) == RateOption(Some(r[i]));
    }
  }

  // ----- the merge -----

  function FindingsIn(r: Report): seq<Finding> { r.findings }

  function PathsIn(r: Report): seq<AttackPath> { r.paths }

  function FrameworksIn(r: Report): seq<FrameworkResult> { r.compliance }

  function TotalFindings(r: Report): nat { r.posture.totalFindings }

  function CriticalPaths(r: Report): nat { r.posture.criticalPaths }

  function Assessed(r: Report): nat { r.posture.controlsAssessed }

  function Breached(r: Report): nat { r.posture.controlsBreached }

  function SumOver(f: Report -> nat, reps: seq<Report>): nat {
    if reps == [] then 0 else SumOver(f, reps[..|reps| - 1]) + f(reps[|reps| - 1])
  }

  lemma {:induction false} SumOverConcat(f: Report -> nat, a: seq<Report>, b: seq<Report>)
    ensures SumOver(f, a + b) == SumOver(f, a) + SumOver(f, b)
  {
    if b == [] {
      assert a + b == a;
    } else {
      SumOverConcat(f, a, b[..|b| - 1]);
      assert (a + b)[..|a + b| - 1] == a + b[..|b| - 1];
    }
  }

  function PassRate(assessed: nat, breached: nat): real {
    if assessed > 0 then (assessed - breached) as real / assessed as real else 0.0
  }

  function Posture(reps: seq<Report>): PostureSummary {
    PostureSummary(SumOver(TotalFindings, reps), SeverityTotals(reps), SumOver(CriticalPaths, reps),
                   SumOver(Assessed, reps), SumOver(Breached, reps),
                   PassRate(SumOver(Assessed, reps), SumOver(Breached, reps)))
  }

  function TopRisks(findings: seq<Finding>, paths: seq<AttackPath>): seq<RiskScore> {
    if findings == [] then [] else R.Scores(findings, paths)
  }

  function Merged(reps: seq<Report>): Report {
    var findings, paths := FlatMap(FindingsIn, reps), FlatMap(PathsIn, reps);
    Report("", "", "", findings, paths, Posture(reps), MergedFrameworks(FlatMap(FrameworksIn, reps)), None,
           TopRisks(findings, paths))
  }

  /** The position index agrees with the merged list. */
  ghost predicate Indexed(seen: map<string, nat>, acc: seq<FrameworkResult>) {
    && (forall n :: n in seen ==> seen[n] < |acc| && acc[seen[n]].framework == n)
    && (forall i :: 0 <= i < |acc| ==> acc[i].framework in seen && seen[acc[i].framework] == i)
  }

  lemma IndexedFinds(seen: map<string, nat>, acc: seq<FrameworkResult>, name: string)
    requires Indexed(seen, acc)
    ensures IndexOf(acc, name) == if name in seen then Some(seen[name]) else None
  {
  }

  method MergeCompliance(acc0: seq<FrameworkResult>, seen0: map<string, nat>, fws: seq<FrameworkResult>)
    returns (acc: seq<FrameworkResult>, seen: map<string, nat>)
    requires Indexed(seen0, acc0)
    ensures Indexed(seen, acc) && acc == AddFrameworks(acc0, fws)
  {
    hide IndexOf;
    acc, seen := acc0, seen0;
    for j := 0 to |fws|
      invariant Indexed(seen, acc) && acc == AddFrameworks(acc0, fws[..j])
    {
      assert fws[..j + 1][..j] == fws[..j];
      var fw := fws[j];
      IndexedFinds(seen, acc, fw.framework);
      if fw.framework in seen {
        var idx := seen[fw.framework];
        acc := acc[idx := Combine(acc[idx], fw)];
      } else {
        seen := seen[fw.framework := |acc|];
        acc := acc + [fw];
      }
    }
    assert fws[..|fws|] == fws;
  }

  method FinishRates(fws: seq<FrameworkResult>) returns (r: seq<FrameworkResult>)
    ensures r == WithRates(fws)
  {
    r := fws;
    for i := 0 to |r|
      invariant |r| == |fws|
      invariant forall k :: 0 <= k < |r| ==> r[k] == if k < i then WithRate(fws[k]) else fws[k]
    {
      if r[i].assessed > 0 {
        r := r[i := r[i].(passRate := r[i].passed as real / r[i].assessed as real)];
      }
    }
  }

  lemma {:induction false} AddFrameworksConcat(acc: seq<FrameworkResult>, a: seq<FrameworkResult>,
                                               b: seq<FrameworkResult>)
    ensures AddFrameworks(acc, a + b) == AddFrameworks(AddFrameworks(acc, a), b)
  {
    hide AddFramework;
    if b == [] {
      assert a + b == a;
    } else {
      AddFrameworksConcat(acc, a, b[..|b| - 1]);
      assert (a + b)[..|a + b| - 1] == a + b[..|b| - 1];
    }
  }

  /** What the loop has accumulated after some reports. */
  ghost predicate Accumulated(reps: seq<Report>, findings: seq<Finding>, paths: seq<AttackPath>,
                              compliance: seq<FrameworkResult>, posture: PostureSummary)
  {
    && findings == FlatMap(FindingsIn, reps) && paths == FlatMap(PathsIn, reps)
    && compliance == AddFrameworks([], FlatMap(FrameworksIn, reps))
    && posture == Posture(reps).(overallPassRate := 0.0)
  }

  lemma AccumulatedStep(reps: seq<Report>, r: Report)
    ensures FlatMap(FindingsIn, reps + [r]) == FlatMap(FindingsIn, reps) + r.findings
    ensures FlatMap(PathsIn, reps + [r]) == FlatMap(PathsIn, reps) + r.paths
    ensures AddFrameworks([], FlatMap(FrameworksIn, reps + [r]))
         == AddFrameworks(AddFrameworks([], FlatMap(FrameworksIn, reps)), r.compliance)
    ensures Posture(reps + [r]).(overallPassRate := 0.0) == PostureSummary(
      Posture(reps).totalFindings + r.posture.totalFindings,
      AddCounts(Posture(reps).bySeverity, r.posture.bySeverity),
      Posture(reps).criticalPaths + r.posture.criticalPaths,
      Posture(reps).controlsAssessed + r.posture.controlsAssessed,
      Posture(reps).controlsBreached + r.posture.controlsBreached, 0.0)
  {
    hide AddFrameworks, AddCounts;
    var all := reps + [r];
    assert all[..|reps|] == reps;
    AddFrameworksConcat([], FlatMap(FrameworksIn, reps), r.compliance);
  }

  method MergeReports(reps: seq<Report>) returns (merged: Report)
    ensures merged == Merged(reps)
    ensures forall fw :: fw in merged.compliance && fw.assessed > 0 ==>
      fw.passRate * fw.assessed as real == fw.passed as real
  {
    hide FlatMap, AddFrameworks, SeverityTotals, SumOver;
    var findings: seq<Finding> := [];
    var paths: seq<AttackPath> := [];
    var compliance: seq<FrameworkResult> := [];
    var posture := EMPTY_POSTURE;
    var seen: map<string, nat> := map[];
    EmptyAccumulated();
    for i := 0 to |reps|
      invariant Accumulated(reps[..i], findings, paths, compliance, posture)
      invariant Indexed(seen, compliance)
    {
      var r := reps[i];
      assert reps[..i + 1] == reps[..i] + [r];
      AccumulatedStep(reps[..i], r);
      findings := findings + r.findings;
      paths := paths + r.paths;
      var bySeverity := AddSeverities(posture.bySeverity, r.posture.bySeverity);
      posture := PostureSummary(posture.totalFindings + r.posture.totalFindings, bySeverity,
                                posture.criticalPaths + r.posture.criticalPaths,
                                posture.controlsAssessed + r.posture.controlsAssessed,
                                posture.controlsBreached + r.posture.controlsBreached, posture.overallPassRate);
      compliance, seen := MergeCompliance(compliance, seen, r.compliance);
    }
    assert reps[..|reps|] == reps;
    compliance := FinishRates(compliance);
    if posture.controlsAssessed > 0 {
      posture := posture.(overallPassRate :=
        (posture.controlsAssessed - posture.controlsBreached) as real / posture.controlsAssessed as real);
    }
    var topRisks: seq<RiskScore> := [];
    if |findings| > 0 {
      topRisks := R.Score(findings, paths);
    }
    merged := Report("", "", "", findings, paths, posture, compliance, None, topRisks);
    RatesAreExact(AddFrameworks([], FlatMap(FrameworksIn, reps)));
  }

  /** Every merged framework with assessed controls reports the share that passed. */
  lemma RatesAreExact(fws: seq<FrameworkResult>)
    ensures forall fw :: fw in WithRates(fws) && fw.assessed > 0 ==>
      fw.passRate * fw.assessed as real == fw.passed as real
  {
    forall fw | fw in WithRates(fws) && fw.assessed > 0 ensures fw.passRate * fw.assessed as real == fw.passed as real {
      Quotient(fw.passed as real, fw.assessed as real);
    }
  }

  lemma Quotient(x: real, y: real)
    requires y > 0.0
    ensures (x / y) * y == x
  {
  }

  lemma EmptyAccumulated()
    ensures Accumulated([], [], [], [], EMPTY_POSTURE)
  {
  }

  // ----- associativity -----

  /** Merging all reports at once equals merging two partial merges. */
  lemma MergeAssociative(a: seq<Report>, b: seq<Report>)
    ensures Merged([Merged(a), Merged(b)]) == Merged(a + b)
  {
    hide FlatMap, SumOver, SeverityTotals, MergedFrameworks, TopRisks, PassRate;
    var l, r := Merged(a), Merged(b);
    PairFlatMap(FindingsIn, l, r);
    PairFlatMap(PathsIn, l, r);
    PairFlatMap(FrameworksIn, l, r);
    FlatMapConcat(FindingsIn, a, b);
    FlatMapConcat(PathsIn, a, b);
    FlatMapConcat(FrameworksIn, a, b);
    FrameworksAssociative(FlatMap(FrameworksIn, a), FlatMap(FrameworksIn, b));
    PostureAssociative(a, b, l, r);
  }

  lemma PairFlatMap<B>(f: Report -> seq<B>, l: Report, r: Report)
    ensures FlatMap(f, [l, r]) == f(l) + f(r)
  {
    FlatMapConcat(f, [l], [r]);
    FlatMapSingle(f, l);
    FlatMapSingle(f, r);
    assert [l] + [r] == [l, r];
  }

  lemma PairSum(f: Report -> nat, l: Report, r: Report)
    ensures SumOver(f, [l, r]) == f(l) + f(r)
  {
    assert [l, r][..1] == [l];
    assert SumOver(f, [l][..0]) == 0;
  }

  lemma PairSeverity(l: Report, r: Report)
    ensures SeverityTotals([l, r]) == AddCounts(l.posture.bySeverity, r.posture.bySeverity)
  {
    assert [l, r][..1] == [l];
    assert SeverityTotals([l][..0]) == map[];
    AddCountsUnit(l.posture.bySeverity);
  }

  lemma PostureAssociative(a: seq<Report>, b: seq<Report>, l: Report, r: Report)
    requires l.posture == Posture(a) && r.posture == Posture(b)
    ensures Posture([l, r]) == Posture(a + b)
  {
    hide SumOver, SeverityTotals, PassRate;
    PairSum(TotalFindings, l, r);
    PairSum(CriticalPaths, l, r);
    PairSum(Assessed, l, r);
    PairSum(Breached, l, r);
    SumOverConcat(TotalFindings, a, b);
    SumOverConcat(CriticalPaths, a, b);
    SumOverConcat(Assessed, a, b);
    SumOverConcat(Breached, a, b);
    PairSeverity(l, r);
    SeverityTotalsConcat(a, b);
  }

  // ----- conservation -----

  lemma {:induction false} SumUpdate(acc: seq<FrameworkResult>, i: nat, fw: FrameworkResult)
    requires i < |acc|
    ensures SumAssessed(acc[i := fw]) == SumAssessed(acc) - acc[i].assessed + fw.assessed
    ensures SumBreached(acc[i := fw]) == SumBreached(acc) - acc[i].breached + fw.breached
    ensures SumPassed(acc[i := fw]) == SumPassed(acc) - acc[i].passed + fw.passed
  {
    var acc' := acc[i := fw];
    if i < |acc| - 1 {
      SumUpdate(acc[..|acc| - 1], i, fw);
      assert acc'[..|acc| - 1] == acc[..|acc| - 1][i := fw];
    } else {
      assert acc'[..|acc| - 1] == acc[..|acc| - 1];
    }
  }

  /** No control is lost or counted twice when frameworks are folded together. */
  lemma {:induction false} FoldConserves(fws: seq<FrameworkResult>)
    ensures SumAssessed(AddFrameworks([], fws)) == SumAssessed(fws)
    ensures SumBreached(AddFrameworks([], fws)) == SumBreached(fws)
    ensures SumPassed(AddFrameworks([], fws)) == SumPassed(fws)
  {
    if fws != [] {
      var front, fw := fws[..|fws| - 1], fws[|fws| - 1];
      FoldConserves(front);
      var acc := AddFrameworks([], front);
      match IndexOf(acc, fw.framework) {
        case Some(i) => SumUpdate(acc, i, Combine(acc[i], fw));
        case None => assert (acc + [fw])[..|acc|] == acc;
      }
    }
  }

  lemma {:induction false} RatesConserve(fws: seq<FrameworkResult>)
    ensures SumAssessed(WithRates(fws)) == SumAssessed(fws) && SumBreached(WithRates(fws)) == SumBreached(fws)
    ensures SumPassed(WithRates(fws)) == SumPassed(fws)
  {
    if fws != [] {
      RatesConserve(fws[..|fws| - 1]);
      assert WithRates(fws)[..|fws| - 1] == WithRates(fws[..|fws| - 1]);
    }
  }

  lemma {:induction false} SumConcatFrameworks(a: seq<FrameworkResult>, b: seq<FrameworkResult>)
    ensures SumAssessed(a + b) == SumAssessed(a) + SumAssessed(b)
    ensures SumBreached(a + b) == SumBreached(a) + SumBreached(b)
  {
    if b == [] {
      assert a + b == a;
    } else {
      SumConcatFrameworks(a, b[..|b| - 1]);
      assert (a + b)[..|a + b| - 1] == a + b[..|b| - 1];
    }
  }

  /** The posture's control totals are its frameworks' totals. */
  ghost predicate PostureMatches(r: Report) {
    r.posture.controlsAssessed == SumAssessed(r.compliance) && r.posture.controlsBreached == SumBreached(r.compliance)
  }

  ghost predicate Balanced(fw: FrameworkResult) {
    fw.passed + fw.breached == fw.assessed
  }

  lemma {:induction false} PostureConserved(reps: seq<Report>)
    requires forall r :: r in reps ==> PostureMatches(r)
    ensures SumOver(Assessed, reps) == SumAssessed(FlatMap(FrameworksIn, reps))
    ensures SumOver(Breached, reps) == SumBreached(FlatMap(FrameworksIn, reps))
  {
    if reps != [] {
      PostureConserved(reps[..|reps| - 1]);
      assert reps[|reps| - 1] in reps;
      SumConcatFrameworks(FlatMap(FrameworksIn, reps[..|reps| - 1]), reps[|reps| - 1].compliance);
    }
  }

  lemma {:induction false} FoldBalanced(fws: seq<FrameworkResult>)
    requires forall fw :: fw in fws ==> Balanced(fw)
    ensures forall fw :: fw in AddFrameworks([], fws) ==> Balanced(fw)
  {
    if fws != [] {
      FoldBalanced(fws[..|fws| - 1]);
      var acc, fw := AddFrameworks([], fws[..|fws| - 1]), fws[|fws| - 1];
      assert fw in fws;
      var acc' := AddFramework(acc, fw);
      forall x | x in acc' ensures Balanced(x) {
        var i :| 0 <= i < |acc'| && acc'[i] == x;
        if i < |acc| { assert acc[i] in acc; }
      }
    }
  }

  /** A merge keeps every total, posture totals equal to framework totals, and passed + breached = assessed. */
  lemma MergeConserves(reps: seq<Report>)
    ensures var all, merged := FlatMap(FrameworksIn, reps), Merged(reps).compliance;
      && SumAssessed(merged) == SumAssessed(all) && SumBreached(merged) == SumBreached(all)
      && SumPassed(merged) == SumPassed(all)
    ensures (forall r :: r in reps ==> PostureMatches(r)) ==> PostureMatches(Merged(reps))
    ensures (forall r, fw :: r in reps && fw in r.compliance ==> Balanced(fw)) ==>
      forall fw :: fw in Merged(reps).compliance ==> Balanced(fw)
  {
    hide Posture, TopRisks, MergedFrameworks, FlatMap, SumAssessed, SumBreached, SumPassed;
    TotalsKept(FlatMap(FrameworksIn, reps));
    if forall r :: r in reps ==> PostureMatches(r) {
      PostureConserved(reps);
      PostureTotals(reps);
    }
    if forall r, fw :: r in reps && fw in r.compliance ==> Balanced(fw) {
      MergeBalanced(reps);
    }
  }

  lemma TotalsKept(fws: seq<FrameworkResult>)
    ensures var merged := MergedFrameworks(fws);
      && SumAssessed(merged) == SumAssessed(fws) && SumBreached(merged) == SumBreached(fws)
      && SumPassed(merged) == SumPassed(fws)
  {
    FoldConserves(fws);
    RatesConserve(AddFrameworks([], fws));
  }

  lemma PostureTotals(reps: seq<Report>)
    ensures Posture(reps).controlsAssessed == SumOver(Assessed, reps)
    ensures Posture(reps).controlsBreached == SumOver(Breached, reps)
  {
  }

  lemma MergeBalanced(reps: seq<Report>)
    requires forall r, fw :: r in reps && fw in r.compliance ==> Balanced(fw)
    ensures forall fw :: fw in MergedFrameworks(FlatMap(FrameworksIn, reps)) ==> Balanced(fw)
  {
    hide FlatMap, AddFrameworks;
    var fws := FlatMap(FrameworksIn, reps);
    forall fw | fw in fws ensures Balanced(fw) { FlatMapMembers(FrameworksIn, reps, fw); }
    FoldBalanced(fws);
    var merged := MergedFrameworks(fws);
    forall fw | fw in merged ensures Balanced(fw) {
      var i :| 0 <= i < |merged| && merged[i] == fw;
      assert AddFrameworks([], fws)[i] in AddFrameworks([], fws);
    }
  }

  // ----- fleet risk -----

  /** A finding's score in the fleet report is at least its score in its own cluster's report. */
  lemma FleetRiskDominates(reps: seq<Report>, r: Report, f: Finding)
    requires r in reps
    ensures R.ScoreOf(f, r.findings, r.paths).score
         <= R.ScoreOf(f, Merged(reps).findings, Merged(reps).paths).score
  {
    hide FlatMap;
    forall x | x in r.findings ensures x in FlatMap(FindingsIn, reps) { FlatMapMembers(FindingsIn, reps, x); }
    forall x | x in r.paths ensures x in FlatMap(PathsIn, reps) { FlatMapMembers(PathsIn, reps, x); }
    R.ScoreMonotone(f, r.findings, Merged(reps).findings, r.paths, Merged(reps).paths);
  }

  /** The fleet ranking holds exactly one score per finding, highest first. */
  lemma FleetRanking(reps: seq<Report>)
    ensures var m := Merged(reps);
      && multiset(m.topRisks) == multiset(FlatMap(R.Scored(m.findings, m.paths), m.findings))
      && Sorted(R.RiskLess, m.topRisks)
  {
    var m := Merged(reps);
    hide Posture, MergedFrameworks, R.Scored, R.RiskLess, StableSort;
    if m.findings != [] {
      R.RiskLessIsOrder();
      StableSortCorrect(R.RiskLess, FlatMap(R.Scored(m.findings, m.paths), m.findings));
    }
  }

  // ----- one merged framework -----

  function Named(name: string): FrameworkResult -> bool {
    (fw: FrameworkResult) => fw.framework == name
  }

  /** The results of one framework, in report order: sums of their counts, and the first one's identity. */
  lemma {:induction false} TotalMeaning(fws: seq<FrameworkResult>, name: string)
    ensures var own := Filter(Named(name), fws);
      match Total(fws, name)
      case None => own == []
      case Some(fw) =>
        && own != [] && fw.version == own[0].version && fw.disclaimer == own[0].disclaimer
        && fw.assessed == SumAssessed(own) && fw.breached == SumBreached(own) && fw.passed == SumPassed(own)
  {
    if fws != [] {
      var front, last := fws[..|fws| - 1], fws[|fws| - 1];
      TotalMeaning(front, name);
      if last.framework == name {
        SumsAppend(Filter(Named(name), front), last);
      } else {
        assert Filter(Named(name), fws) == Filter(Named(name), front);
      }
    }
  }

  lemma SumsAppend(fws: seq<FrameworkResult>, fw: FrameworkResult)
    ensures SumAssessed(fws + [fw]) == SumAssessed(fws) + fw.assessed
    ensures SumBreached(fws + [fw]) == SumBreached(fws) + fw.breached
    ensures SumPassed(fws + [fw]) == SumPassed(fws) + fw.passed
  {
    assert (fws + [fw])[..|fws|] == fws;
  }

  /** Merging two reports lists the first one's findings and paths before the second one's. */
  lemma MergePair(l: Report, r: Report)
    ensures var m := Merged([l, r]);
      && m.generatedAt == "" && m.source == "" && m.profile == "" && m.coverage == None
      && m.findings == l.findings + r.findings && m.paths == l.paths + r.paths
      && m.posture.totalFindings == l.posture.totalFindings + r.posture.totalFindings
      && m.posture.criticalPaths == l.posture.criticalPaths + r.posture.criticalPaths
      && forall s :: Count(m.posture.bySeverity, s) == Count(l.posture.bySeverity, s) + Count(r.posture.bySeverity, s)
  {
    hide FlatMap, SumOver, SeverityTotals, MergedFrameworks, TopRisks, PassRate;
    PairFlatMap(FindingsIn, l, r);
    PairFlatMap(PathsIn, l, r);
    PairSum(TotalFindings, l, r);
    PairSum(CriticalPaths, l, r);
    PairSeverity(l, r);
  }
}
