/** Deterministic risk scores: a weighted sum whose every term is recorded as a factor. */
module Risk {
  import opened Common
  import opened Ordering
  import opened Api

  function SeverityPoints(s: Severity): int {
    match s
    case Critical => 50
    case High => 30
    case Medium => 15
    case Low => 5
    case _ => 0
  }

  const POINTS_ENABLER := 25
  const POINTS_INTERNET := 20
  const POINTS_ADMIN := 30
  const POINTS_NODE := 20
  const POINTS_TOKEN := 10
  const POINTS_PER_EXTRA := 2
  const MAX_BREADTH := 10

  // ----- what the paths say about a check -----

  datatype Signals = Signals(internet: bool, admin: bool, node: bool, token: bool) {
    function Or(s: Signals): Signals {
      Signals(internet || s.internet, admin || s.admin, node || s.node, token || s.token)
    }
  }

  const NO_SIGNALS := Signals(false, false, false, false)

  /** Internet reachability and blast radius of a list of hops. */
  function HopSignals(hops: seq<PathHop>): Signals {
    if hops == [] then NO_SIGNALS
    else
      var h := hops[|hops| - 1];
      HopSignals(hops[..|hops| - 1]).Or(
        Signals(h.from == InternetIngress || h.to == InternetIngress, h.to == ClusterAdmin, h.to == NodeAccess,
                h.to == ServiceAccountToken || h.to == SecretRead))
  }

  predicate Enables(hops: seq<PathHop>, id: string) {
    id != "" && exists h :: h in hops && h.enabledBy == id
  }

  function OrElse(o: Option<Signals>, s: Signals): Signals {
    match o case Some(x) => x.Or(s) case None => s
  }

  /** The joined signals of every path in which `id` enables a hop. */
  function SignalsOf(paths: seq<AttackPath>, id: string): Option<Signals> {
    if paths == [] then None
    else
      var front, last := SignalsOf(paths[..|paths| - 1], id), paths[|paths| - 1];
      if Enables(last.hops, id) then Some(OrElse(front, HopSignals(last.hops))) else front
  }

  function Lookup(m: map<string, Signals>, id: string): Option<Signals> {
    if id in m then Some(m[id]) else None
  }

  method PathSignals(hops: seq<PathHop>) returns (s: Signals)
    ensures s == HopSignals(hops)
  {
    var internet, admin, node, token := false, false, false, false;
    for i := 0 to |hops|
      invariant Signals(internet, admin, node, token) == HopSignals(hops[..i])
    {
      assert hops[..i + 1][..i] == hops[..i];
      var h := hops[i];
      if h.from == InternetIngress || h.to == InternetIngress {
        internet := true;
      }
      match h.to
      case ClusterAdmin => admin := true;
      case NodeAccess => node := true;
      case ServiceAccountToken => token := true;
      case SecretRead => token := true;
      case _ =>
    }
    assert hops[..|hops|] == hops;
    s := Signals(internet, admin, node, token);
  }

  lemma EnablesAppend(hops: seq<PathHop>, h: PathHop, id: string)
    ensures Enables(hops + [h], id) <==> Enables(hops, id) || (id != "" && h.enabledBy == id)
  {
    assert forall x :: x in hops + [h] <==> x in hops || x == h;
  }

  function Joined(o: Option<Signals>, enables: bool, s: Signals): Option<Signals> {
    if enables then Some(OrElse(o, s)) else o
  }

  /** Joins `s` into the entry of every check that enables one of `hops`. */
  method JoinPath(byFinding: map<string, Signals>, hops: seq<PathHop>, s: Signals) returns (m: map<string, Signals>)
    ensures forall id :: Lookup(m, id) == Joined(Lookup(byFinding, id), Enables(hops, id), s)
  {
    m := byFinding;
    for i := 0 to |hops|
      invariant forall id :: Lookup(m, id) == Joined(Lookup(byFinding, id), Enables(hops[..i], id), s)
    {
      var h := hops[i];
      assert hops[..i + 1] == hops[..i] + [h];
      forall id ensures Enables(hops[..i + 1], id) <==> Enables(hops[..i], id) || (id != "" && h.enabledBy == id) {
        EnablesAppend(hops[..i], h, id);
      }
      if h.enabledBy == "" {
        continue;
      }
      var known := if h.enabledBy in m then m[h.enabledBy] else NO_SIGNALS;
      ghost var prev := m;
      m := m[h.enabledBy := known.Or(s)];
      assert forall id :: id != h.enabledBy ==> Lookup(m, id) == Lookup(prev, id);
    }
    assert hops[..|hops|] == hops;
  }

  method AnalyzePaths(paths: seq<AttackPath>) returns (byFinding: map<string, Signals>)
    ensures forall id :: Lookup(byFinding, id) == SignalsOf(paths, id)
  {
    byFinding := map[];
    for i := 0 to |paths|
      invariant forall id :: Lookup(byFinding, id) == SignalsOf(paths[..i], id)
    {
      assert paths[..i + 1][..i] == paths[..i];
      var s := PathSignals(paths[i].hops);
      byFinding := JoinPath(byFinding, paths[i].hops, s);
    }
    assert paths[..|paths|] == paths;
  }

  /** Some path that `id` enables a hop of shows the signal picked. */
  ghost predicate Shown(paths: seq<AttackPath>, id: string, pick: Signals -> bool) {
    exists p :: p in paths && Enables(p.hops, id) && pick(HopSignals(p.hops))
  }

  lemma ShownStep(front: seq<AttackPath>, last: AttackPath, id: string, pick: Signals -> bool)
    ensures Shown(front + [last], id, pick)
      <==> Shown(front, id, pick) || (Enables(last.hops, id) && pick(HopSignals(last.hops)))
  {
    hide Enables, HopSignals;
    assert forall p :: p in front + [last] <==> p in front || p == last;
  }

  const ANY := (s: Signals) => true
  const INTERNET := (s: Signals) => s.internet
  const ADMIN := (s: Signals) => s.admin
  const NODE := (s: Signals) => s.node
  const TOKEN := (s: Signals) => s.token

  /** A check carries a signal exactly when some path it enables a hop of shows it. */
  lemma {:induction false} SignalsMeaning(paths: seq<AttackPath>, id: string)
    ensures SignalsOf(paths, id).Some? <==> Shown(paths, id, ANY)
    ensures SignalsOf(paths, id).Some? ==>
      var s := SignalsOf(paths, id).value;
      && (s.internet <==> Shown(paths, id, INTERNET)) && (s.admin <==> Shown(paths, id, ADMIN))
      && (s.node <==> Shown(paths, id, NODE)) && (s.token <==> Shown(paths, id, TOKEN))
  {
    hide Enables, HopSignals;
    if paths != [] {
      var front, last := paths[..|paths| - 1], paths[|paths| - 1];
      SignalsMeaning(front, id);
      assert paths == front + [last];
      ShownStep(front, last, id, ANY);
      ShownStep(front, last, id, INTERNET);
      ShownStep(front, last, id, ADMIN);
      ShownStep(front, last, id, NODE);
      ShownStep(front, last, id, TOKEN);
      ShownImpliesAny(front, id);
      hide Shown;
    }
  }

  lemma ShownImpliesAny(paths: seq<AttackPath>, id: string)
    ensures Shown(paths, id, INTERNET) || Shown(paths, id, ADMIN) || Shown(paths, id, NODE) || Shown(paths, id, TOKEN)
      ==> Shown(paths, id, ANY)
  {
    hide Enables, HopSignals;
    if Shown(paths, id, INTERNET) || Shown(paths, id, ADMIN) || Shown(paths, id, NODE) || Shown(paths, id, TOKEN) {
      var p :| p in paths && Enables(p.hops, id);
      assert ANY(HopSignals(p.hops));
    }
  }

  // ----- factors -----

  function Factor(name: string, points: int): seq<RiskFactor> {
    if points == 0 then [] else [RiskFactor(name, points)]
  }

  /** Only the strongest outcome reached counts. */
  function BlastPoints(s: Signals): int {
    if s.admin then POINTS_ADMIN else if s.node then POINTS_NODE else if s.token then POINTS_TOKEN else 0
  }

  function PathFactors(o: Option<Signals>): seq<RiskFactor> {
    match o
    case None => []
    case Some(s) =>
      Factor("attack-path-enabler", POINTS_ENABLER)
      + (if s.internet then Factor("internet-exposed", POINTS_INTERNET) else [])
      + Factor("blast-radius", BlastPoints(s))
  }

  function BreadthPoints(n: nat): int {
    if n <= 1 then 0
    else if (n - 1) * POINTS_PER_EXTRA > MAX_BREADTH then MAX_BREADTH else (n - 1) * POINTS_PER_EXTRA
  }

  function FactorsOf(sev: Severity, o: Option<Signals>, affected: nat): seq<RiskFactor> {
    Factor("severity", SeverityPoints(sev)) + PathFactors(o) + Factor("breadth", BreadthPoints(affected))
  }

  function Points(fs: seq<RiskFactor>): int {
    if fs == [] then 0 else Points(fs[..|fs| - 1]) + fs[|fs| - 1].points
  }

  /** The key under which distinct resources are counted. */
  function ResourceKey(r: ResourceRef): string {
    r.kind + "/" + r.namespace + "/" + r.name
  }

  function Affected(findings: seq<Finding>, id: string): set<string> {
    set f | f in findings && f.id == id :: ResourceKey(f.resource)
  }

  function ScoreOf(f: Finding, findings: seq<Finding>, paths: seq<AttackPath>): RiskScore {
    var factors := FactorsOf(f.severity, SignalsOf(paths, f.id), |Affected(findings, f.id)|);
    RiskScore(f.id, f.severity, f.resource, Points(factors), factors)
  }

  lemma PointsStep(fs: seq<RiskFactor>, name: string, points: int)
    ensures Points(fs + Factor(name, points)) == Points(fs) + points
  {
    if points == 0 {
      assert fs + Factor(name, points) == fs;
    } else {
      var all := fs + Factor(name, points);
      assert all[..|all| - 1] == fs;
    }
  }

  /** The score as the published weighted sum. */
  function WeightedSum(sev: Severity, o: Option<Signals>, affected: nat): int {
    SeverityPoints(sev)
    + (match o
       case None => 0
       case Some(s) => POINTS_ENABLER + (if s.internet then POINTS_INTERNET else 0) + BlastPoints(s))
    + BreadthPoints(affected)
  }

  lemma PointsAreWeightedSum(sev: Severity, o: Option<Signals>, affected: nat)
    ensures Points(FactorsOf(sev, o, affected)) == WeightedSum(sev, o, affected)
  {
    hide Points, BreadthPoints, SeverityPoints, BlastPoints;
    var severity := Factor("severity", SeverityPoints(sev));
    PointsStep([], "severity", SeverityPoints(sev));
    PointsEmpty();
    assert [] + severity == severity;
    PointsStep(severity + PathFactors(o), "breadth", BreadthPoints(affected));
    match o {
      case None => assert severity + PathFactors(o) == severity;
      case Some(s) =>
        var a := severity + Factor("attack-path-enabler", POINTS_ENABLER);
        PointsStep(severity, "attack-path-enabler", POINTS_ENABLER);
        var b := if s.internet then a + Factor("internet-exposed", POINTS_INTERNET) else a;
        PointsStep(a, "internet-exposed", POINTS_INTERNET);
        PointsStep(b, "blast-radius", BlastPoints(s));
        assert severity + PathFactors(o) == b + Factor("blast-radius", BlastPoints(s));
    }
  }

  lemma PointsEmpty()
    ensures Points([]) == 0
  {
  }

  /** Every score is the sum of its factors and lies between 0 and 135. */
  lemma ScoreRange(f: Finding, findings: seq<Finding>, paths: seq<AttackPath>)
    ensures var r := ScoreOf(f, findings, paths);
      r.score == Points(r.factors) && 0 <= r.score <= 135
  {
    hide SignalsOf, Affected, Points, FactorsOf;
    PointsAreWeightedSum(f.severity, SignalsOf(paths, f.id), |Affected(findings, f.id)|);
  }

  /** The bound is reached, and a finding of unknown severity on no path scores nothing. */
  lemma ScoreRangeTight()
    ensures exists o, n :: WeightedSum(Critical, o, n) == 135
    ensures WeightedSum(Info, None, 1) == 0
  {
    assert WeightedSum(Critical, Some(Signals(true, true, true, true)), 6) == 135;
  }

  // ----- scoring a report -----

  /** Score descending, then severity, then check id. */
  predicate RiskLess(a: RiskScore, b: RiskScore) {
    if a.score != b.score then a.score > b.score
    else if a.severity.Rank() != b.severity.Rank() then a.severity.Rank() > b.severity.Rank()
    else StringLess(a.findingId, b.findingId)
  }

  lemma RiskLessIsOrder()
    ensures StrictWeakOrder(RiskLess)
  {
    forall x: RiskScore, y: RiskScore, z: RiskScore
      ensures !RiskLess(x, x)
      ensures RiskLess(x, y) && RiskLess(y, z) ==> RiskLess(x, z)
      ensures RiskLess(x, z) ==> RiskLess(x, y) || RiskLess(y, z)
    {
      StringLessTriple(x.findingId, y.findingId, z.findingId);
    }
  }

  function Scored(findings: seq<Finding>, paths: seq<AttackPath>): Finding -> seq<RiskScore> {
    (f: Finding) => [ScoreOf(f, findings, paths)]
  }

  function Scores(findings: seq<Finding>, paths: seq<AttackPath>): seq<RiskScore> {
    StableSort(RiskLess, FlatMap(Scored(findings, paths), findings))
  }

  method CountAffected(findings: seq<Finding>) returns (affected: map<string, set<string>>)
    ensures forall id :: Affected(findings, id) == if id in affected then affected[id] else {}
  {
    affected := map[];
    for i := 0 to |findings|
      invariant forall id :: Affected(findings[..i], id) == if id in affected then affected[id] else {}
    {
      var f := findings[i];
      assert findings[..i + 1] == findings[..i] + [f];
      forall id ensures Affected(findings[..i + 1], id) ==
        Affected(findings[..i], id) + (if f.id == id then {ResourceKey(f.resource)} else {}) {}
      if f.id !in affected {
        affected := affected[f.id := {}];
      }
      affected := affected[f.id := affected[f.id] + {ResourceKey(f.resource)}];
    }
    assert findings[..|findings|] == findings;
  }

  /** One finding's score, built factor by factor. */
  method ScoreFinding(f: Finding, sig: Option<Signals>, n: nat) returns (rs: RiskScore)
    ensures rs == RiskScore(f.id, f.severity, f.resource, Points(FactorsOf(f.severity, sig, n)),
                            FactorsOf(f.severity, sig, n))
  {
    hide Points, SeverityPoints, Factor, PathFactors;
    rs := RiskScore(f.id, f.severity, f.resource, 0, []);
    PointsEmpty();
    rs := AddFactor(rs, "severity", SeverityPoints(f.severity));
    rs := AddPathFactors(rs, sig);
    NoPoints("breadth");
    if n > 1 {
      var bonus := (n - 1) * POINTS_PER_EXTRA;
      if bonus > MAX_BREADTH {
        bonus := MAX_BREADTH;
      }
      rs := AddFactor(rs, "breadth", bonus);
    }
    assert rs.factors == FactorsOf(f.severity, sig, n);
  }

  lemma NoPoints(name: string)
    ensures Factor(name, 0) == []
  {
  }

  method AddPathFactors(rs: RiskScore, sig: Option<Signals>) returns (out: RiskScore)
    requires rs.score == Points(rs.factors)
    ensures out == rs.(score := Points(rs.factors + PathFactors(sig)), factors := rs.factors + PathFactors(sig))
  {
    hide Points, Factor;
    out := rs;
    if sig.Some? {
      out := AddFactor(out, "attack-path-enabler", POINTS_ENABLER);
      if sig.value.internet {
        out := AddFactor(out, "internet-exposed", POINTS_INTERNET);
      }
      NoPoints("blast-radius");
      if sig.value.admin {
        out := AddFactor(out, "blast-radius", POINTS_ADMIN);
      } else if sig.value.node {
        out := AddFactor(out, "blast-radius", POINTS_NODE);
      } else if sig.value.token {
        out := AddFactor(out, "blast-radius", POINTS_TOKEN);
      }
    }
    assert out.factors == rs.factors + PathFactors(sig);
  }

  method AddFactor(rs: RiskScore, name: string, points: int) returns (out: RiskScore)
    requires rs.score == Points(rs.factors)
    ensures out == rs.(score := rs.score + points, factors := rs.factors + Factor(name, points))
    ensures out.score == Points(out.factors)
  {
    PointsStep(rs.factors, name, points);
    out := rs;
    if points == 0 {
      return;
    }
    out := out.(score := rs.score + points, factors := rs.factors + [RiskFactor(name, points)]);
  }

  method Score(findings: seq<Finding>, paths: seq<AttackPath>) returns (out: seq<RiskScore>)
    ensures out == Scores(findings, paths)
    ensures forall i, j :: 0 <= i < j < |out| ==>
      var a, b := out[i], out[j];
      && a.score >= b.score
      && (a.score == b.score ==> a.severity.Rank() >= b.severity.Rank())
      && (a.score == b.score && a.severity.Rank() == b.severity.Rank() ==> !StringLess(b.findingId, a.findingId))
    ensures multiset(out) == multiset(FlatMap(Scored(findings, paths), findings))
  {
    hide FlatMap, Points, FactorsOf, RiskLess, StableSort, SignalsOf, Affected;
    var byFinding := AnalyzePaths(paths);
    var affected := CountAffected(findings);
    out := [];
    FlatMapEnds(Scored(findings, paths), findings);
    for i := 0 to |findings|
      invariant out == FlatMap(Scored(findings, paths), findings[..i])
    {
      FlatMapStep(Scored(findings, paths), findings, i);
      var f := findings[i];
      var n := |if f.id in affected then affected[f.id] else {}|;
      assert n == |Affected(findings, f.id)|;
      assert Lookup(byFinding, f.id) == SignalsOf(paths, f.id);
      var rs := ScoreFinding(f, Lookup(byFinding, f.id), n);
      out := out + [rs];
    }
    RiskLessIsOrder();
    StableSortCorrect(RiskLess, out);
    out := StableSort(RiskLess, out);
    RiskiestFirst(out);
  }

  /** Highest score first, then severity, then check id. */
  lemma RiskiestFirst(out: seq<RiskScore>)
    requires Sorted(RiskLess, out)
    ensures forall i, j :: 0 <= i < j < |out| ==>
      var a, b := out[i], out[j];
      && a.score >= b.score
      && (a.score == b.score ==> a.severity.Rank() >= b.severity.Rank())
      && (a.score == b.score && a.severity.Rank() == b.severity.Rank() ==> !StringLess(b.findingId, a.findingId))
  {
    hide StringLess;
    forall i, j | 0 <= i < j < |out| ensures !RiskLess(out[j], out[i]) {}
  }

  // ----- more paths and more findings never lower a score -----

  lemma SignalsGrow(paths: seq<AttackPath>, more: seq<AttackPath>, id: string)
    requires Within(paths, more) && SignalsOf(paths, id).Some?
    ensures SignalsOf(more, id).Some?
    ensures var s, t := SignalsOf(paths, id).value, SignalsOf(more, id).value;
      (s.internet ==> t.internet) && (s.admin ==> t.admin) && (s.node ==> t.node) && (s.token ==> t.token)
  {
    hide SignalsOf, Enables, HopSignals;
    SignalsMeaning(paths, id);
    SignalsMeaning(more, id);
  }

  lemma SubsetCard(a: set<string>, b: set<string>)
    requires a <= b
    ensures |a| <= |b|
  {
    assert b == a + (b - a);
  }

  /** Adding paths and findings never lowers a finding's score. */
  lemma ScoreMonotone(f: Finding, findings: seq<Finding>, more: seq<Finding>,
                      paths: seq<AttackPath>, morePaths: seq<AttackPath>)
    requires Within(findings, more) && Within(paths, morePaths)
    ensures ScoreOf(f, findings, paths).score <= ScoreOf(f, more, morePaths).score
  {
    hide SignalsOf, Points, FactorsOf;
    var n, m := |Affected(findings, f.id)|, |Affected(more, f.id)|;
    SubsetCard(Affected(findings, f.id), Affected(more, f.id));
    PointsAreWeightedSum(f.severity, SignalsOf(paths, f.id), n);
    PointsAreWeightedSum(f.severity, SignalsOf(morePaths, f.id), m);
    if SignalsOf(paths, f.id).Some? { SignalsGrow(paths, morePaths, f.id); }
  }

  // ----- the published weights -----

  /** Base weight, path weight and breadth of a finding, in numbers. */
  lemma ScoreTable(f: Finding, findings: seq<Finding>, paths: seq<AttackPath>)
    ensures var o, n := SignalsOf(paths, f.id), |Affected(findings, f.id)|;
      var base := if f.severity == Critical then 50 else if f.severity == High then 30
                  else if f.severity == Medium then 15 else if f.severity == Low then 5 else 0;
      var path := if o.None? then 0
                  else 25 + (if o.value.internet then 20 else 0)
                       + (if o.value.admin then 30 else if o.value.node then 20 else if o.value.token then 10 else 0);
      var breadth := if n == 0 then 0 else if n > 6 then 10 else 2 * (n - 1);
      ScoreOf(f, findings, paths).score == base + path + breadth
  {
    hide SignalsOf, Affected, Points, FactorsOf;
    PointsAreWeightedSum(f.severity, SignalsOf(paths, f.id), |Affected(findings, f.id)|);
  }

  /** A list of hops carries a signal exactly when one of its hops shows it. */
  lemma {:induction false} HopSignalsMeaning(hops: seq<PathHop>)
    ensures var s := HopSignals(hops);
      && (s.internet <==> exists h :: h in hops && (h.from == InternetIngress || h.to == InternetIngress))
      && (s.admin <==> exists h :: h in hops && h.to == ClusterAdmin)
      && (s.node <==> exists h :: h in hops && h.to == NodeAccess)
      && (s.token <==> exists h :: h in hops && (h.to == ServiceAccountToken || h.to == SecretRead))
  {
    if hops != [] {
      HopSignalsMeaning(hops[..|hops| - 1]);
      assert hops == hops[..|hops| - 1] + [hops[|hops| - 1]];
    }
  }

  // ----- how many resources a check affects -----

  ghost predicate SlashFree(s: string) {
    '/' !in s
  }

  lemma {:induction false} CutAtSlash(a: string, b: string, x: string, y: string)
    requires SlashFree(a) && SlashFree(b) && a + ("/" + x) == b + ("/" + y)
    ensures a == b && x == y
  {
    if a == "" || b == "" {
      assert (a + ("/" + x))[0] == (b + ("/" + y))[0];
      assert a == b == "";
      assert (a + ("/" + x))[1..] == x && (b + ("/" + y))[1..] == y;
    } else {
      assert (a + ("/" + x))[0] == a[0] && (b + ("/" + y))[0] == b[0];
      assert (a + ("/" + x))[1..] == a[1..] + ("/" + x) && (b + ("/" + y))[1..] == b[1..] + ("/" + y);
      CutAtSlash(a[1..], b[1..], x, y);
      assert a == [a[0]] + a[1..] && b == [b[0]] + b[1..];
    }
  }

  /** Kinds and namespaces without a slash keep resources apart. */
  lemma KeysApart(r: ResourceRef, q: ResourceRef)
    requires SlashFree(r.kind) && SlashFree(r.namespace) && SlashFree(q.kind) && SlashFree(q.namespace)
    ensures ResourceKey(r) == ResourceKey(q) <==> r == q
  {
    if ResourceKey(r) == ResourceKey(q) {
      KeySplits(r);
      KeySplits(q);
      CutAtSlash(r.kind, q.kind, r.namespace + ("/" + r.name), q.namespace + ("/" + q.name));
      CutAtSlash(r.namespace, q.namespace, r.name, q.name);
    }
  }

  lemma KeySplits(r: ResourceRef)
    ensures ResourceKey(r) == r.kind + ("/" + (r.namespace + ("/" + r.name)))
  {
  }

  /** The breadth of a check is the number of resources it found, as long as kinds and namespaces have no slash. */
  lemma AffectedResources(findings: seq<Finding>, id: string)
    requires forall f :: f in findings ==> SlashFree(f.resource.kind) && SlashFree(f.resource.namespace)
    ensures |Affected(findings, id)| == |set f | f in findings && f.id == id :: f.resource|
  {
    hide ResourceKey;
    var refs := set f | f in findings && f.id == id :: f.resource;
    forall r, q | r in refs && q in refs ensures ResourceKey(r) == ResourceKey(q) <==> r == q { KeysApart(r, q); }
    KeysCount(refs);
    assert Affected(findings, id) == set r | r in refs :: ResourceKey(r);
  }

  lemma {:induction false} KeysCount(refs: set<ResourceRef>)
    requires forall r, q :: r in refs && q in refs && ResourceKey(r) == ResourceKey(q) ==> r == q
    ensures |set r | r in refs :: ResourceKey(r)| == |refs|
  {
    hide ResourceKey;
    var keys := set r | r in refs :: ResourceKey(r);
    if refs != {} {
      var r :| r in refs;
      KeysCount(refs - {r});
      assert keys == (set q | q in refs - {r} :: ResourceKey(q)) + {ResourceKey(r)};
    }
  }
}
