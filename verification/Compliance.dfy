/**
 * Compliance posture, computed twice: `Evaluate` from the set of fired checks, and
 * `BuildEvidence` from the findings themselves. Pass rates are exact reals.
 */
module Compliance {
  import opened Common
  import opened Ordering
  import opened Api

  datatype Control = Control(id: string, title: string, mapsTo: seq<string>, assessable: bool)

  datatype Pack = Pack(id: string, title: string, version: string, disclaimer: string, controls: seq<Control>)

  datatype EvidenceControl = EvidenceControl(controlId: string, title: string, mapsTo: seq<string>, breached: bool,
                                             findings: seq<Finding>)

  datatype EvidencePack = EvidencePack(generatedAt: string, source: string, profile: string, id: string,
                                       framework: string, version: string, assessed: nat, breached: nat,
                                       passed: nat, passRate: real, controls: seq<EvidenceControl>,
                                       disclaimer: string)

  // ----- rounding -----

  /** Round half away from zero, as Go's `math.Round`. */
  function Round(x: real): int {
    if x >= 0.0 then (x + 0.5).Floor else -((-x + 0.5).Floor)
  }

  function Round4(x: real): real {
    Round(x * 10000.0) as real / 10000.0
  }

  function Rate(passed: nat, assessed: nat): real {
    if assessed > 0 then Round4(passed as real / assessed as real) else 0.0
  }

  // ----- evaluation -----

  /** A control counts only if it is assessable and every check it maps to ran. */
  predicate IsAssessed(c: Control, executed: set<string>) {
    c.assessable && forall id :: id in c.mapsTo ==> id in executed
  }

  function FiredIn(fired: set<string>): string -> bool {
    (id: string) => id in fired
  }

  function Offending(c: Control, fired: set<string>): seq<string> {
    Filter(FiredIn(fired), c.mapsTo)
  }

  function BreachOf(c: Control, fired: set<string>): ControlBreach {
    ControlBreach(c.id, c.title, StableSort(StringLess, Offending(c, fired)))
  }

  function AssessedWith(executed: set<string>): Control -> bool {
    (c: Control) => IsAssessed(c, executed)
  }

  function BreachesWith(fired: set<string>): Control -> seq<ControlBreach> {
    (c: Control) => if Offending(c, fired) == [] then [] else [BreachOf(c, fired)]
  }

  function AssessedControls(p: Pack, executed: set<string>): seq<Control> {
    Filter(AssessedWith(executed), p.controls)
  }

  function Breaches(p: Pack, executed: set<string>, fired: set<string>): seq<ControlBreach> {
    FlatMap(BreachesWith(fired), AssessedControls(p, executed))
  }

  lemma {:induction false} BreachesBounded(cs: seq<Control>, fired: set<string>)
    ensures |FlatMap(BreachesWith(fired), cs)| <= |cs|
  {
    hide Offending;
    if cs != [] { BreachesBounded(cs[..|cs| - 1], fired); }
  }

  function Evaluated(p: Pack, executed: set<string>, fired: set<string>): FrameworkResult {
    var assessed, breaches := |AssessedControls(p, executed)|, Breaches(p, executed, fired);
    BreachesBounded(AssessedControls(p, executed), fired);
    FrameworkResult(p.title, p.version, assessed, |breaches|, assessed - |breaches|,
                    Rate(assessed - |breaches|, assessed), breaches, p.disclaimer)
  }

  lemma FilterStep<A>(f: A -> bool, s: seq<A>, i: nat)
    requires i < |s|
    ensures Filter(f, s[..i + 1]) == Filter(f, s[..i]) + (if f(s[i]) then [s[i]] else [])
  {
    assert s[..i + 1][..i] == s[..i];
  }

  method Evaluate(p: Pack, executed: set<string>, fired: set<string>) returns (res: FrameworkResult)
    ensures res == Evaluated(p, executed, fired)
  {
    hide FlatMap, Filter, Offending, BreachOf, IsAssessed, Rate;
    var assessed, breached := 0, 0;
    var breaches: seq<ControlBreach> := [];
    var cs := p.controls;
    FilterEnds(AssessedWith(executed), cs);
    ghost var done: seq<Control> := [];
    FlatMapEnds(BreachesWith(fired), done);
    for i := 0 to |cs|
      invariant done == Filter(AssessedWith(executed), cs[..i])
      invariant assessed == |done| && breached == |breaches| && breached <= assessed
      invariant breaches == FlatMap(BreachesWith(fired), done)
    {
      FilterStep(AssessedWith(executed), cs, i);
      var c := cs[i];
      if !IsAssessed(c, executed) {
        continue;
      }
      FlatMapConcat(BreachesWith(fired), done, [c]);
      FlatMapSingle(BreachesWith(fired), c);
      done := done + [c];
      assessed := assessed + 1;
      var offending := FindOffending(c, fired);
      if |offending| > 0 {
        breached := breached + 1;
        breaches := breaches + [BreachOf(c, fired)];
      }
    }
    var passRate := Rate(assessed - breached, assessed);
    res := FrameworkResult(p.title, p.version, assessed, breached, assessed - breached, passRate, breaches,
      p.disclaimer);
  }

  lemma FilterEnds<A>(f: A -> bool, s: seq<A>)
    ensures Filter(f, s[..0]) == [] && s[..|s|] == s
  {
  }

  method FindOffending(c: Control, fired: set<string>) returns (offending: seq<string>)
    ensures offending == Offending(c, fired)
  {
    offending := [];
    for i := 0 to |c.mapsTo|
      invariant offending == Filter(FiredIn(fired), c.mapsTo[..i])
    {
      FilterStep(FiredIn(fired), c.mapsTo, i);
      if c.mapsTo[i] in fired {
        offending := offending + [c.mapsTo[i]];
      }
    }
    assert c.mapsTo[..|c.mapsTo|] == c.mapsTo;
  }

  function Fired(findings: seq<Finding>): set<string> {
    set f | f in findings :: f.id
  }

  method FiredChecks(findings: seq<Finding>) returns (m: set<string>)
    ensures m == Fired(findings)
  {
    m := {};
    for i := 0 to |findings|
      invariant m == Fired(findings[..i])
    {
      assert findings[..i + 1] == findings[..i] + [findings[i]];
      m := m + {findings[i].id};
    }
    assert findings[..|findings|] == findings;
  }

  // ----- evidence -----

  function WithId(id: string): Finding -> bool {
    (f: Finding) => f.id == id
  }

  function FindingsFor(findings: seq<Finding>): string -> seq<Finding> {
    (id: string) => Filter(WithId(id), findings)
  }

  function EvidenceFor(findings: seq<Finding>, c: Control): EvidenceControl {
    var mapped := StableSort(StringLess, c.mapsTo);
    var fs := FlatMap(FindingsFor(findings), mapped);
    EvidenceControl(c.id, c.title, mapped, |fs| > 0, fs)
  }

  function EvidenceWith(findings: seq<Finding>): Control -> seq<EvidenceControl> {
    (c: Control) => [EvidenceFor(findings, c)]
  }

  function IsBreached(): EvidenceControl -> bool {
    (e: EvidenceControl) => e.breached
  }

  function EvidenceControls(findings: seq<Finding>, p: Pack, executed: set<string>): seq<EvidenceControl> {
    FlatMap(EvidenceWith(findings), AssessedControls(p, executed))
  }

  lemma {:induction false} FilterBounded<A>(f: A -> bool, s: seq<A>)
    ensures |Filter(f, s)| <= |s|
  {
    if s != [] { FilterBounded(f, s[..|s| - 1]); }
  }

  function Evidence(rep: Report, p: Pack, executed: set<string>): EvidencePack {
    var controls := EvidenceControls(rep.findings, p, executed);
    var breached := |Filter(IsBreached(), controls)|;
    FilterBounded(IsBreached(), controls);
    EvidencePack(rep.generatedAt, rep.source, rep.profile, p.id, p.title, p.version, |controls|, breached,
                 |controls| - breached, Rate(|controls| - breached, |controls|), controls, p.disclaimer)
  }

  /** Findings grouped by check id, in report order. */
  method GroupByCheck(findings: seq<Finding>) returns (byCheck: map<string, seq<Finding>>)
    ensures forall id :: FindingsFor(findings)(id) == Group(byCheck, id)
  {
    byCheck := map[];
    for i := 0 to |findings|
      invariant forall id :: Filter(WithId(id), findings[..i]) == Group(byCheck, id)
    {
      forall id ensures Filter(WithId(id), findings[..i + 1])
        == Filter(WithId(id), findings[..i]) + (if findings[i].id == id then [findings[i]] else [])
      {
        FilterStep(WithId(id), findings, i);
      }
      var id := findings[i].id;
      byCheck := byCheck[id := Group(byCheck, id) + [findings[i]]];
    }
    assert findings[..|findings|] == findings;
  }

  function Group(byCheck: map<string, seq<Finding>>, id: string): seq<Finding> {
    if id in byCheck then byCheck[id] else []
  }

  method BuildControl(findings: seq<Finding>, byCheck: map<string, seq<Finding>>, c: Control)
    returns (ctrl: EvidenceControl)
    requires forall id :: FindingsFor(findings)(id) == Group(byCheck, id)
    ensures ctrl == EvidenceFor(findings, c)
  {
    hide StableSort, FlatMap;
    var mapped := StableSort(StringLess, c.mapsTo);
    var fs: seq<Finding> := [];
    FlatMapEnds(FindingsFor(findings), mapped);
    for i := 0 to |mapped|
      invariant fs == FlatMap(FindingsFor(findings), mapped[..i])
    {
      FlatMapStep(FindingsFor(findings), mapped, i);
      fs := fs + Group(byCheck, mapped[i]);
    }
    ctrl := EvidenceControl(c.id, c.title, mapped, |fs| > 0, fs);
  }

  method BuildEvidence(rep: Report, packs: seq<Pack>, executed: set<string>) returns (out: seq<EvidencePack>)
    ensures |out| == |packs|
    ensures forall i :: 0 <= i < |packs| ==> out[i] == Evidence(rep, packs[i], executed)
  {
    hide Evidence;
    var byCheck := GroupByCheck(rep.findings);
    out := [];
    for i := 0 to |packs|
      invariant |out| == i
      invariant forall j :: 0 <= j < i ==> out[j] == Evidence(rep, packs[j], executed)
    {
      var ep := BuildPack(rep, byCheck, packs[i], executed);
      out := out + [ep];
    }
  }

  method BuildPack(rep: Report, byCheck: map<string, seq<Finding>>, p: Pack, executed: set<string>)
    returns (ep: EvidencePack)
    requires forall id :: FindingsFor(rep.findings)(id) == Group(byCheck, id)
    ensures ep == Evidence(rep, p, executed)
  {
    hide FlatMap, Filter, IsAssessed, EvidenceFor, Rate;
    var assessed, breached := 0, 0;
    var controls: seq<EvidenceControl> := [];
    var cs := p.controls;
    FilterEnds(AssessedWith(executed), cs);
    FilterEnds(IsBreached(), controls);
    ghost var done: seq<Control> := [];
    FlatMapEnds(EvidenceWith(rep.findings), done);
    for i := 0 to |cs|
      invariant done == Filter(AssessedWith(executed), cs[..i])
      invariant controls == FlatMap(EvidenceWith(rep.findings), done)
      invariant assessed == |controls| && breached == |Filter(IsBreached(), controls)| && breached <= assessed
    {
      FilterStep(AssessedWith(executed), cs, i);
      if !IsAssessed(cs[i], executed) {
        continue;
      }
      FlatMapConcat(EvidenceWith(rep.findings), done, [cs[i]]);
      FlatMapSingle(EvidenceWith(rep.findings), cs[i]);
      done := done + [cs[i]];
      assessed := assessed + 1;
      var ctrl := BuildControl(rep.findings, byCheck, cs[i]);
      if ctrl.breached {
        breached := breached + 1;
      }
      FilterConcat(IsBreached(), controls, [ctrl]);
      FilterSingle(IsBreached(), ctrl);
      controls := controls + [ctrl];
    }
    ep := EvidencePack(rep.generatedAt, rep.source, rep.profile, p.id, p.title, p.version, assessed, breached,
                       assessed - breached, Rate(assessed - breached, assessed), controls, p.disclaimer);
  }

  lemma FilterSingle<A>(f: A -> bool, x: A)
    ensures Filter(f, [x]) == if f(x) then [x] else []
  {
    assert Filter(f, [x][..0]) == [];
  }

  // ----- posture -----

  method EvaluateAll(packs: seq<Pack>, executed: set<string>, fired: set<string>) returns (out: seq<FrameworkResult>)
    ensures out == EvaluatedAll(packs, executed, fired)
  {
    hide Evaluated;
    out := [];
    for i := 0 to |packs|
      invariant |out| == i
      invariant forall j :: 0 <= j < i ==> out[j] == Evaluated(packs[j], executed, fired)
    {
      var res := Evaluate(packs[i], executed, fired);
      out := out + [res];
    }
  }

  function EvaluatedAll(packs: seq<Pack>, executed: set<string>, fired: set<string>): (r: seq<FrameworkResult>)
    ensures |r| == |packs|
    ensures forall i :: 0 <= i < |r| ==> r[i] == Evaluated(packs[i], executed, fired)
  {
    seq(|packs|, i requires 0 <= i < |packs| => Evaluated(packs[i], executed, fired))
  }

  function SeverityCounts(findings: seq<Finding>): map<Severity, nat> {
    if findings == [] then map[]
    else
      var m, s := SeverityCounts(findings[..|findings| - 1]), findings[|findings| - 1].severity;
      m[s := Count(m, s) + 1]
  }

  function IsCritical(): AttackPath -> bool {
    (p: AttackPath) => p.severity == Critical
  }

  function OverallRate(assessed: nat, breached: nat): real {
    if assessed > 0 then Round4((assessed - breached) as real / assessed as real) else 0.0
  }

  function Summary(findings: seq<Finding>, paths: seq<AttackPath>, results: seq<FrameworkResult>): PostureSummary {
    PostureSummary(|findings|, SeverityCounts(findings), |Filter(IsCritical(), paths)|,
                   SumAssessed(results), SumBreached(results), OverallRate(SumAssessed(results), SumBreached(results)))
  }

  method Summarize(findings: seq<Finding>, paths: seq<AttackPath>, results: seq<FrameworkResult>)
    returns (s: PostureSummary)
    ensures s == Summary(findings, paths, results)
  {
    hide OverallRate, Round4;
    var bySeverity: map<Severity, nat> := map[];
    for i := 0 to |findings|
      invariant bySeverity == SeverityCounts(findings[..i])
    {
      assert findings[..i + 1][..i] == findings[..i];
      bySeverity := bySeverity[findings[i].severity := Count(bySeverity, findings[i].severity) + 1];
    }
    assert findings[..|findings|] == findings;
    var criticalPaths := 0;
    FilterEnds(IsCritical(), paths);
    for i := 0 to |paths|
      invariant criticalPaths == |Filter(IsCritical(), paths[..i])|
    {
      FilterStep(IsCritical(), paths, i);
      if paths[i].severity == Critical {
        criticalPaths := criticalPaths + 1;
      }
    }
    var assessed, breached := 0, 0;
    for i := 0 to |results|
      invariant assessed == SumAssessed(results[..i]) && breached == SumBreached(results[..i])
    {
      assert results[..i + 1][..i] == results[..i];
      assessed := assessed + results[i].assessed;
      breached := breached + results[i].breached;
    }
    assert results[..|results|] == results;
    s := PostureSummary(|findings|, bySeverity, criticalPaths, assessed, breached, OverallRate(assessed, breached));
  }

  function HasSeverity(s: Severity): Finding -> bool {
    (f: Finding) => f.severity == s
  }

  lemma {:induction false} SeverityCounted(findings: seq<Finding>, s: Severity)
    ensures Count(SeverityCounts(findings), s) == |Filter(HasSeverity(s), findings)|
  {
    if findings != [] { SeverityCounted(findings[..|findings| - 1], s); }
  }

  /** The posture's numbers, counted directly on findings, paths and results. */
  lemma SummaryMeaning(findings: seq<Finding>, paths: seq<AttackPath>, results: seq<FrameworkResult>)
    ensures var p := Summary(findings, paths, results);
      && p.totalFindings == |findings|
      && (forall s :: Count(p.bySeverity, s) == |set i | 0 <= i < |findings| && findings[i].severity == s|)
      && p.criticalPaths == |set i | 0 <= i < |paths| && paths[i].severity == Critical|
  {
    hide SeverityCounts, OverallRate, Filter;
    forall s ensures Count(SeverityCounts(findings), s) == |set i | 0 <= i < |findings| && findings[i].severity == s| {
      SeverityCounted(findings, s);
      FilterCount(HasSeverity(s), findings);
      assert Positions(HasSeverity(s), findings) == set i | 0 <= i < |findings| && findings[i].severity == s;
    }
    FilterCount(IsCritical(), paths);
    assert Positions(IsCritical(), paths) == set i | 0 <= i < |paths| && paths[i].severity == Critical;
  }

  // ----- the two computations agree -----

  /** A control is breached in one computation exactly when it is in the other, by the same checks. */
  lemma ControlAgrees(findings: seq<Finding>, c: Control)
    ensures EvidenceFor(findings, c).breached <==> Offending(c, Fired(findings)) != []
    ensures Fired(EvidenceFor(findings, c).findings) == (set id | id in Offending(c, Fired(findings)))
  {
    hide StableSort, FlatMap, Filter;
    var mapped := StableSort(StringLess, c.mapsTo);
    var fs := FlatMap(FindingsFor(findings), mapped);
    var off := Offending(c, Fired(findings));
    SameElements(mapped, c.mapsTo);
    forall f | f in fs ensures f.id in off {
      FlatMapMembers(FindingsFor(findings), mapped, f);
      var id :| id in mapped && f in FindingsFor(findings)(id);
      FilterMembers(WithId(id), findings, f);
      FilterMembers(FiredIn(Fired(findings)), c.mapsTo, id);
    }
    forall id | id in off ensures exists f :: f in fs && f.id == id {
      FilterMembers(FiredIn(Fired(findings)), c.mapsTo, id);
      var f :| f in findings && f.id == id;
      FilterMembers(WithId(id), findings, f);
      assert f in FindingsFor(findings)(id);
      FlatMapMembers(FindingsFor(findings), mapped, f);
    }
    assert |off| > 0 ==> off[0] in off;
    assert |fs| > 0 ==> fs[0] in fs;
  }

  function ControlIds(bs: seq<ControlBreach>): seq<string> {
    if bs == [] then [] else ControlIds(bs[..|bs| - 1]) + [bs[|bs| - 1].controlId]
  }

  function BreachedIds(es: seq<EvidenceControl>): seq<string> {
    if es == [] then []
    else BreachedIds(es[..|es| - 1]) + (if es[|es| - 1].breached then [es[|es| - 1].controlId] else [])
  }

  lemma {:induction false} ControlsAgree(findings: seq<Finding>, cs: seq<Control>)
    ensures var bs, es := FlatMap(BreachesWith(Fired(findings)), cs), FlatMap(EvidenceWith(findings), cs);
      && |es| == |cs|
      && |Filter(IsBreached(), es)| == |bs|
      && BreachedIds(es) == ControlIds(bs)
  {
    hide Offending, BreachOf, EvidenceFor;
    if cs != [] {
      var front, c := cs[..|cs| - 1], cs[|cs| - 1];
      ControlsAgree(findings, front);
      ControlAgrees(findings, c);
      var bs, es := FlatMap(BreachesWith(Fired(findings)), cs), FlatMap(EvidenceWith(findings), cs);
      assert es[..|es| - 1] == FlatMap(EvidenceWith(findings), front);
      if Offending(c, Fired(findings)) != [] {
        assert bs[..|bs| - 1] == FlatMap(BreachesWith(Fired(findings)), front);
        assert BreachOf(c, Fired(findings)).controlId == EvidenceFor(findings, c).controlId by {
          SameControl(findings, c);
        }
      } else {
        assert bs == FlatMap(BreachesWith(Fired(findings)), front);
      }
    }
  }

  lemma SameControl(findings: seq<Finding>, c: Control)
    ensures BreachOf(c, Fired(findings)).controlId == c.id == EvidenceFor(findings, c).controlId
  {
  }

  /**
   * For every pack, executed set and report, both computations give the same denominator,
   * breached and passed counts, pass rate, and breached controls in the same order.
   */
  lemma ComputationsAgree(rep: Report, p: Pack, executed: set<string>)
    ensures var r, e := Evaluated(p, executed, Fired(rep.findings)), Evidence(rep, p, executed);
      && r.assessed == e.assessed && r.breached == e.breached && r.passed == e.passed && r.passRate == e.passRate
      && BreachedIds(e.controls) == ControlIds(r.breaches)
  {
    hide Rate, AssessedControls, FlatMap, Filter, BreachedIds, ControlIds;
    ControlsAgree(rep.findings, AssessedControls(p, executed));
  }

  // ----- rounding is honest -----

  lemma RoundIsNearest(x: real)
    ensures Round(x) as real - 0.5 <= x <= Round(x) as real + 0.5
    ensures x >= 0.0 ==> x < Round(x) as real + 0.5
  {
  }

  /** `passed / assessed` in ten-thousandths. */
  function Scaled(passed: nat, assessed: nat): real
    requires assessed > 0
  {
    (passed as real / assessed as real) * 10000.0
  }

  /** Cross-multiplication, so that the rest is linear. */
  lemma ScaledBelow(passed: nat, assessed: nat, k: real)
    requires assessed > 0
    ensures Scaled(passed, assessed) < k <==> 10000.0 * passed as real < k * assessed as real
  {
    var p, a := passed as real, assessed as real;
    var q := p / a;
    assert q * a == p;
    assert (q * 10000.0) * a == 10000.0 * p;
    if q * 10000.0 < k {
      assert (q * 10000.0) * a < k * a by { MulLess(q * 10000.0, k, a); }
    } else {
      assert k * a <= (q * 10000.0) * a by { MulLeq(k, q * 10000.0, a); }
    }
  }

  lemma MulLess(x: real, y: real, a: real)
    requires a > 0.0 && x < y
    ensures x * a < y * a
  {
  }

  lemma MulLeq(x: real, y: real, a: real)
    requires a > 0.0 && x <= y
    ensures x * a <= y * a
  {
  }

  /** The reported rate is within 1/20000 of the true one and never leaves [0, 1]. */
  lemma RateIsClose(passed: nat, assessed: nat)
    requires 0 < assessed && passed <= assessed
    ensures var exact := passed as real / assessed as real;
      exact - 1.0 / 20000.0 <= Rate(passed, assessed) <= exact + 1.0 / 20000.0
    ensures 0.0 <= Rate(passed, assessed) <= 1.0
  {
    ScaledBelow(passed, assessed, 0.0);
    ScaledBelow(passed, assessed, 10000.5);
    RoundIsNearest(Scaled(passed, assessed));
  }

  /**
   * A perfect score is reported exactly when at most one control in 20000 is breached, and a zero
   * exactly when fewer than one in 20000 passed.
   */
  lemma RateExtremes(passed: nat, assessed: nat)
    requires 0 < assessed && passed <= assessed
    ensures Rate(passed, assessed) == 1.0 <==> 20000 * (assessed - passed) <= assessed
    ensures Rate(passed, assessed) == 0.0 <==> 20000 * passed < assessed
  {
    var s := Scaled(passed, assessed);
    ScaledBelow(passed, assessed, 0.0);
    ScaledBelow(passed, assessed, 0.5);
    ScaledBelow(passed, assessed, 9999.5);
    ScaledBelow(passed, assessed, 10000.5);
    RoundIsNearest(s);
    assert Rate(passed, assessed) == 1.0 <==> Round(s) == 10000;
    assert Rate(passed, assessed) == 0.0 <==> Round(s) == 0;
  }

  /** Below 20000 assessed controls, 100% means nothing breached and 0% means nothing passed. */
  lemma RateHonestBelow20000(passed: nat, assessed: nat)
    requires 0 < assessed < 20000 && passed <= assessed
    ensures Rate(passed, assessed) == 1.0 <==> passed == assessed
    ensures Rate(passed, assessed) == 0.0 <==> passed == 0
  {
    RateExtremes(passed, assessed);
  }

  /** From 20000 controls on the promise fails: one breach is rounded away. */
  lemma RateRoundsBreachAway()
    ensures Rate(19999, 20000) == 1.0
  {
    RateExtremes(19999, 20000);
  }

  // ----- what an evaluation reports -----

  /**
   * A breach is reported exactly for the assessable controls all of whose checks ran and some of
   * whose checks fired, and lists those that fired, sorted.
   */
  lemma BreachesMeaning(p: Pack, executed: set<string>, fired: set<string>, b: ControlBreach)
    ensures b in Evaluated(p, executed, fired).breaches <==>
      exists c :: c in p.controls && c.assessable && (forall id :: id in c.mapsTo ==> id in executed)
        && (exists id :: id in c.mapsTo && id in fired) && b == BreachOf(c, fired)
  {
    hide FlatMap, Filter, BreachOf, Rate;
    FlatMapMembers(BreachesWith(fired), AssessedControls(p, executed), b);
    forall c ensures Offending(c, fired) != [] <==> exists id :: id in c.mapsTo && id in fired {
      var off := Offending(c, fired);
      forall id ensures id in off <==> id in c.mapsTo && id in fired { FilterMembers(FiredIn(fired), c.mapsTo, id); }
      assert off != [] ==> off[0] in off;
    }
    forall c ensures c in AssessedControls(p, executed) <==> c in p.controls && IsAssessed(c, executed) {
      FilterMembers(AssessedWith(executed), p.controls, c);
    }
    if c :| c in p.controls && c.assessable && (forall id :: id in c.mapsTo ==> id in executed)
            && (exists id :: id in c.mapsTo && id in fired) && b == BreachOf(c, fired) {
      assert IsAssessed(c, executed) && b in BreachesWith(fired)(c);
    }
  }

  lemma BreachLists(c: Control, fired: set<string>)
    ensures var b := BreachOf(c, fired);
      && b.controlId == c.id && b.title == c.title
      && (forall id :: id in b.findings <==> id in c.mapsTo && id in fired)
      && forall i, j :: 0 <= i < j < |b.findings| ==> !StringLess(b.findings[j], b.findings[i])
  {
    hide StableSort, StringLess, Filter;
    var off := Offending(c, fired);
    var b := BreachOf(c, fired);
    SameElements(b.findings, off);
    forall id ensures id in b.findings <==> id in c.mapsTo && id in fired {
      FilterMembers(FiredIn(fired), c.mapsTo, id);
    }
    ByName();
    StableSortCorrect(StringLess, off);
  }

  lemma ByName()
    ensures StrictWeakOrder(StringLess)
  {
    forall x: string, y: string, z: string
      ensures !StringLess(x, x)
      ensures StringLess(x, y) && StringLess(y, z) ==> StringLess(x, z)
      ensures StringLess(x, z) ==> StringLess(x, y) || StringLess(y, z)
    {
      StringLessTriple(x, y, z);
    }
  }

  /** Assessed counts the controls that are assessable and fully run; the rate is of those that passed. */
  lemma EvaluationCounts(p: Pack, executed: set<string>, fired: set<string>)
    ensures var r := Evaluated(p, executed, fired);
      && r.framework == p.title && r.version == p.version && r.disclaimer == p.disclaimer
      && r.assessed == |set i | 0 <= i < |p.controls| && p.controls[i].assessable
                              && (forall id :: id in p.controls[i].mapsTo ==> id in executed)|
      && r.breached == |r.breaches| && r.passed + r.breached == r.assessed
      && (r.assessed > 0 ==> -1.0 / 20000.0 <= r.passRate - r.passed as real / r.assessed as real <= 1.0 / 20000.0)
      && (r.assessed == 0 ==> r.passRate == 0.0)
  {
    hide Filter, BreachesWith;
    FilterCount(AssessedWith(executed), p.controls);
    assert Positions(AssessedWith(executed), p.controls) ==
      set i | 0 <= i < |p.controls| && p.controls[i].assessable
              && forall id :: id in p.controls[i].mapsTo ==> id in executed;
    var r := Evaluated(p, executed, fired);
    if r.assessed > 0 { RateIsClose(r.passed, r.assessed); }
  }

  // ----- what an evidence pack holds -----

  /** The header is the report's and the pack's. */
  lemma EvidenceHeader(rep: Report, p: Pack, executed: set<string>)
    ensures var e := Evidence(rep, p, executed);
      && e.generatedAt == rep.generatedAt && e.source == rep.source && e.profile == rep.profile
      && e.id == p.id && e.framework == p.title && e.version == p.version && e.disclaimer == p.disclaimer
      && e.passed + e.breached == e.assessed == |e.controls|
  {
  }

  /** One entry per assessed control, in order. */
  lemma {:induction false} EvidenceInOrder(findings: seq<Finding>, cs: seq<Control>)
    ensures var es := FlatMap(EvidenceWith(findings), cs);
      |es| == |cs| && forall i :: 0 <= i < |cs| ==> es[i] == EvidenceFor(findings, cs[i])
  {
    hide EvidenceFor;
    if cs != [] {
      var front := cs[..|cs| - 1];
      EvidenceInOrder(findings, front);
      var es := FlatMap(EvidenceWith(findings), front);
      assert FlatMap(EvidenceWith(findings), cs) == es + [EvidenceFor(findings, cs[|cs| - 1])];
      assert forall i :: 0 <= i < |front| ==> front[i] == cs[i];
    }
  }

  /** An entry carries its control's id and title. */
  lemma EvidenceNames(findings: seq<Finding>, c: Control)
    ensures EvidenceFor(findings, c).controlId == c.id && EvidenceFor(findings, c).title == c.title
  {
  }

  /** A control's evidence is exactly the findings of the checks it maps to. */
  lemma EvidenceFindings(findings: seq<Finding>, c: Control, f: Finding)
    ensures f in EvidenceFor(findings, c).findings <==> f in findings && f.id in c.mapsTo
    ensures EvidenceFor(findings, c).breached <==> EvidenceFor(findings, c).findings != []
    ensures multiset(EvidenceFor(findings, c).mapsTo) == multiset(c.mapsTo)
  {
    hide StableSort, FlatMap, Filter;
    var mapped := StableSort(StringLess, c.mapsTo);
    SameElements(mapped, c.mapsTo);
    FlatMapMembers(FindingsFor(findings), mapped, f);
    FilterMembers(WithId(f.id), findings, f);
    if id :| id in mapped && f in FindingsFor(findings)(id) {
      FilterMembers(WithId(id), findings, f);
    }
    if f in findings && f.id in c.mapsTo {
      assert f.id in mapped && f in FindingsFor(findings)(f.id);
    }
  }
}
