/**
 * The capability ladder: how the facts about one workload become an ordered attack path.
 */
module Ladder {
  import opened Common
  import opened Api

  const KG_PRIVILEGED := "KG-001"
  const KG_HOST_PATH := "KG-002"
  const KG_DANGEROUS_CAP := "KG-008"
  const KG_CLUSTER_ADMIN := "KG-011"
  const KG_SECRETS := "KG-013"
  const KG_POD_CREATE := "KG-014"
  const KG_AUTOMOUNT := "KG-015"
  const KG_NO_NETPOL := "KG-017"
  const KG_EXPOSURE := "KG-018"

  /** What the graph says about one workload, as far as its path depends on it. */
  datatype Facts = Facts(service: Option<string>, escapes: bool, escapeBy: string, nodeBy: string,
                         automount: bool, admin: bool, secrets: bool, pods: bool, defaultDeny: bool)
  {
    /** A harvestable token that is worth harvesting. */
    predicate UsableToken() {
      automount && (admin || secrets || pods)
    }

    predicate Reachable(assumeBreach: bool) {
      service.Some? || escapes || assumeBreach
    }

    predicate Takeover() {
      escapes || (automount && admin)
    }
  }

  predicate HasFoothold(c: Capability) {
    match c
    case ContainerEscape | NodeAccess | ServiceAccountToken | SecretRead | PodCreate | ClusterAdmin => true
    case _ => false
  }

  // ----- severity -----

  function CapSeverity(c: Capability): Severity {
    match c
    case ClusterAdmin | NodeAccess => Critical
    case ContainerEscape | HostNetworkAccess | HostProcessAccess | SecretRead | PodCreate | BroadAPIAccess => High
    case ServiceAccountToken | LateralMovement => Medium
    case _ => Low
  }

  function Consider(best: Severity, c: Capability): Severity {
    if CapSeverity(c).Rank() > best.Rank() then CapSeverity(c) else best
  }

  function SeverityOf(hops: seq<PathHop>): Severity {
    if hops == [] then Info
    else Consider(Consider(SeverityOf(hops[..|hops| - 1]), hops[|hops| - 1].from), hops[|hops| - 1].to)
  }

  method PathSeverity(hops: seq<PathHop>, cur: Capability) returns (best: Severity)
    ensures best == Consider(SeverityOf(hops), cur)
  {
    best := Info;
    for i := 0 to |hops|
      invariant best == SeverityOf(hops[..i])
    {
      assert hops[..i + 1][..i] == hops[..i];
      best := Consider(best, hops[i].from);
      best := Consider(best, hops[i].to);
    }
    assert hops[..|hops|] == hops;
    best := Consider(best, cur);
  }

  function Mentioned(hops: seq<PathHop>): set<Capability> {
    if hops == [] then {} else Mentioned(hops[..|hops| - 1]) + {hops[|hops| - 1].from, hops[|hops| - 1].to}
  }

  /** A path's severity is the strongest among the capabilities it mentions. */
  lemma {:induction false} SeverityIsMaximum(hops: seq<PathHop>)
    ensures forall c :: c in Mentioned(hops) ==> CapSeverity(c).Rank() <= SeverityOf(hops).Rank()
    ensures hops != [] ==> exists c :: c in Mentioned(hops) && CapSeverity(c) == SeverityOf(hops)
  {
    if hops != [] {
      var front, last := hops[..|hops| - 1], hops[|hops| - 1];
      SeverityIsMaximum(front);
      assert last.from in Mentioned(hops) && last.to in Mentioned(hops);
    }
  }

  // ----- titles -----

  function CapPrecedence(c: Capability): int {
    match c
    case ClusterAdmin => 100
    case NodeAccess => 90
    case SecretRead => 80
    case PodCreate => 75
    case ContainerEscape => 70
    case BroadAPIAccess => 65
    case LateralMovement => 30
    case ServiceAccountToken => 20
    case _ => 10
  }

  /** The first outcome of highest precedence. */
  function ApexCap(hops: seq<PathHop>): Capability {
    if hops == [] then NoCapability
    else
      var best, to := ApexCap(hops[..|hops| - 1]), hops[|hops| - 1].to;
      if |hops| == 1 || CapPrecedence(to) > CapPrecedence(best) then to else best
  }

  function PathTitle(name: string, hops: seq<PathHop>): string {
    match ApexCap(hops)
    case ClusterAdmin => "Cluster-admin takeover via " + name
    case NodeAccess => "Node breakout via " + name
    case SecretRead => "Secret exfiltration via " + name
    case PodCreate => "Pod-create pivot via " + name
    case _ => "Privilege escalation via " + name
  }

  // ----- the path of one workload, as a list of steps -----

  datatype Step = Step(to: Capability, enabler: string, technique: Technique, via: string)

  function EntryCap(f: Facts): Capability {
    if f.service.Some? then InternetIngress else NetworkReachable
  }

  function EntrySteps(f: Facts): seq<Step> {
    match f.service
    case Some(name) => [Step(NetworkReachable, KG_EXPOSURE, T1190, name)]
    case None => []
  }

  function EscapeSteps(f: Facts): seq<Step> {
    if f.escapes
    then [Step(ContainerEscape, f.escapeBy, T1611, ""), Step(NodeAccess, f.nodeBy, T1611, "")]
    else []
  }

  function TokenSteps(f: Facts): seq<Step> {
    if !f.UsableToken() then []
    else
      [TOKEN]
      + if f.admin then [ADMIN]
        else (if f.secrets then [SECRETS] else []) + (if f.pods then [PODS] else [])
  }

  const TOKEN := Step(ServiceAccountToken, KG_AUTOMOUNT, T1552_001, "")
  const ADMIN := Step(ClusterAdmin, KG_CLUSTER_ADMIN, T1078, "")
  const SECRETS := Step(SecretRead, KG_SECRETS, T1552, "")
  const PODS := Step(PodCreate, KG_POD_CREATE, T1610, "")
  const LATERAL := Step(LateralMovement, KG_NO_NETPOL, T1021, "")

  function LateralSteps(f: Facts): seq<Step> {
    if !f.defaultDeny && (f.escapes || f.UsableToken()) then [LATERAL] else []
  }

  function InsideSteps(f: Facts): seq<Step> {
    EntrySteps(f) + EscapeSteps(f) + TokenSteps(f)
  }

  function Steps(f: Facts): seq<Step> {
    InsideSteps(f) + LateralSteps(f)
  }

  /** Steps numbered from one and linked end to end. */
  function Chain(start: Capability, steps: seq<Step>): (hops: seq<PathHop>)
    ensures |hops| == |steps|
  {
    if steps == [] then []
    else AddHop(Chain(start, steps[..|steps| - 1]), EndOf(start, steps[..|steps| - 1]), steps[|steps| - 1])
  }

  function AddHop(hops: seq<PathHop>, cur: Capability, s: Step): seq<PathHop> {
    hops + [PathHop(|hops| + 1, cur, s.to, s.enabler, s.technique, s.via)]
  }

  function EndOf(start: Capability, steps: seq<Step>): Capability {
    if steps == [] then start else steps[|steps| - 1].to
  }

  function HopsOf(f: Facts): seq<PathHop> {
    Chain(EntryCap(f), Steps(f))
  }

  function PathFrom(f: Facts, entry: ResourceRef, assumeBreach: bool): Option<AttackPath> {
    if !f.Reachable(assumeBreach) then None
    else
      var hops := HopsOf(f);
      var sev := Consider(SeverityOf(hops), EndOf(EntryCap(f), Steps(f)));
      if sev.Rank() < High.Rank() then None
      else Some(AttackPath("", PathTitle(entry.name, hops), sev, entry, hops))
  }

  lemma ChainStep(start: Capability, steps: seq<Step>, s: Step)
    ensures Chain(start, steps + [s]) == AddHop(Chain(start, steps), EndOf(start, steps), s)
    ensures EndOf(start, steps + [s]) == s.to
  {
    assert (steps + [s])[..|steps|] == steps;
  }

  /** The hops so far and the steps they stand for. */
  ghost predicate Built(f: Facts, steps: seq<Step>, hops: seq<PathHop>, cur: Capability) {
    hops == Chain(EntryCap(f), steps) && cur == EndOf(EntryCap(f), steps)
  }

  method Add(ghost f: Facts, ghost steps: seq<Step>, hops: seq<PathHop>, cur: Capability, s: Step)
    returns (hops': seq<PathHop>, cur': Capability)
    requires Built(f, steps, hops, cur)
    ensures Built(f, steps + [s], hops', cur')
    ensures hops' == AddHop(hops, cur, s) && cur' == s.to
  {
    ChainStep(EntryCap(f), steps, s);
    hops', cur' := AddHop(hops, cur, s), s.to;
  }

  method BuildPath(f: Facts, entry: ResourceRef, assumeBreach: bool) returns (path: Option<AttackPath>)
    ensures path == PathFrom(f, entry, assumeBreach)
  {
    if !(f.service.Some? || f.escapes || assumeBreach) {
      return None;
    }
    var hops, cur := BuildEscape(f);

    hops, cur := BuildToken(f, EntrySteps(f) + EscapeSteps(f), hops, cur);
    hops, cur := BuildLateral(f, hops, cur);
    var sev := PathSeverity(hops, cur);
    if sev.Rank() < High.Rank() {
      return None;
    }
    return Some(AttackPath("", PathTitle(entry.name, hops), sev, entry, hops));
  }

  /** The entry and the container escape to the node. */
  method BuildEscape(f: Facts) returns (hops: seq<PathHop>, cur: Capability)
    ensures Built(f, EntrySteps(f) + EscapeSteps(f), hops, cur)
    ensures cur == if f.escapes then NodeAccess else NetworkReachable
  {
    NothingChained(EntryCap(f));
    hide Chain;
    hops := [];
    ghost var steps: seq<Step> := [];
    if f.service.Some? {
      cur := InternetIngress;
      var s0 := Step(NetworkReachable, KG_EXPOSURE, T1190, f.service.value);
      hops, cur := Add(f, steps, hops, cur, s0);
      steps := steps + [s0];
    } else {
      cur := NetworkReachable; // a foothold inside the cluster; no explicit hop
    }
    assert steps == EntrySteps(f);
    if f.escapes {
      var s1 := Step(ContainerEscape, f.escapeBy, T1611, "");
      hops, cur := Add(f, steps, hops, cur, s1);
      var s2 := Step(NodeAccess, f.nodeBy, T1611, "");
      hops, cur := Add(f, steps + [s1], hops, cur, s2);
      assert steps + [s1] + [s2] == steps + EscapeSteps(f);
    } else {
      assert steps + EscapeSteps(f) == steps;
    }
  }

  lemma NothingChained(start: Capability)
    ensures Chain(start, []) == [] && EndOf(start, []) == start
  {
  }

  /** ServiceAccount token, then RBAC escalation. */
  method BuildToken(f: Facts, ghost steps: seq<Step>, hops: seq<PathHop>, cur: Capability)
    returns (hops': seq<PathHop>, cur': Capability)
    requires Built(f, steps, hops, cur) && cur == if f.escapes then NodeAccess else NetworkReachable
    ensures Built(f, steps + TokenSteps(f), hops', cur')
    ensures HasFoothold(cur') <==> f.escapes || f.UsableToken()
  {
    hide Built;
    var footholdInCluster := cur == NodeAccess || cur == ContainerEscape || cur == NetworkReachable;
    if !(f.automount && footholdInCluster && (f.admin || f.secrets || f.pods)) {
      assert steps + TokenSteps(f) == steps;
      return hops, cur;
    }
    hops', cur' := Add(f, steps, hops, cur, TOKEN);
    ghost var done := steps + [TOKEN];
    if f.admin {
      hops', cur' := Add(f, done, hops', cur', ADMIN);
      assert done + [ADMIN] == steps + TokenSteps(f);
    } else {
      if f.secrets {
        hops', cur' := Add(f, done, hops', cur', SECRETS);
        done := done + [SECRETS];
      }
      if f.pods {
        hops', cur' := Add(f, done, hops', cur', PODS);
        done := done + [PODS];
      }
      assert done == steps + TokenSteps(f);
    }
  }

  method BuildLateral(f: Facts, hops: seq<PathHop>, cur: Capability)
    returns (hops': seq<PathHop>, cur': Capability)
    requires Built(f, InsideSteps(f), hops, cur)
    requires HasFoothold(cur) <==> f.escapes || f.UsableToken()
    ensures Built(f, Steps(f), hops', cur')
  {
    hops', cur' := hops, cur;
    if !f.defaultDeny && HasFoothold(cur) {
      hops', cur' := Add(f, InsideSteps(f), hops, cur, LATERAL);
    } else {
      assert InsideSteps(f) + LateralSteps(f) == InsideSteps(f);
    }
  }

  // ----- closed form -----

  lemma {:induction false} ChainShape(start: Capability, steps: seq<Step>, i: nat)
    requires i < |steps|
    ensures var h := Chain(start, steps)[i];
      && h.order == i + 1 && h.to == steps[i].to && h.enabledBy == steps[i].enabler
      && h.from == (if i == 0 then start else steps[i - 1].to)
  {
    if i < |steps| - 1 {
      ChainShape(start, steps[..|steps| - 1], i);
    }
  }

  function Reached(steps: seq<Step>): set<Capability> {
    if steps == [] then {} else Reached(steps[..|steps| - 1]) + {steps[|steps| - 1].to}
  }

  lemma {:induction false} ReachedConcat(a: seq<Step>, b: seq<Step>)
    ensures Reached(a + b) == Reached(a) + Reached(b)
  {
    if b == [] {
      assert a + b == a;
    } else {
      ReachedConcat(a, b[..|b| - 1]);
      assert (a + b)[..|a + b| - 1] == a + b[..|b| - 1];
    }
  }

  lemma ReachedStep(a: seq<Step>, s: Step)
    ensures Reached(a + [s]) == Reached(a) + {s.to}
  {
    assert (a + [s])[..|a|] == a;
  }

  /** The capabilities a chain mentions are its start and the ends of its steps. */
  lemma {:induction false} ChainMentions(start: Capability, steps: seq<Step>)
    requires steps != []
    ensures Mentioned(Chain(start, steps)) == {start} + Reached(steps)
    ensures EndOf(start, steps) in Reached(steps)
  {
    var front := steps[..|steps| - 1];
    var hops := Chain(start, steps);
    assert hops[..|hops| - 1] == Chain(start, front);
    if front != [] {
      ChainMentions(start, front);
    }
  }

  /** Every capability reached is the end of some hop. */
  lemma {:induction false} ReachedByHop(start: Capability, steps: seq<Step>, c: Capability) returns (h: PathHop)
    requires c in Reached(steps)
    ensures h in Chain(start, steps) && h.to == c
  {
    var last := |steps| - 1;
    if steps[last].to == c {
      ChainShape(start, steps, last);
      h := Chain(start, steps)[last];
    } else {
      h := ReachedByHop(start, steps[..last], c);
    }
  }

  /** What a usable token leads to: cluster-admin alone, or the lesser capabilities it has. */
  function TokenOutcomes(f: Facts): set<Capability> {
    if !f.UsableToken() then {}
    else {ServiceAccountToken}
         + (if f.admin then {ClusterAdmin}
            else (if f.secrets then {SecretRead} else {}) + (if f.pods then {PodCreate} else {}))
  }

  /** Every capability a workload's path steps to. */
  function Outcomes(f: Facts): set<Capability> {
    (if f.service.Some? then {NetworkReachable} else {})
    + (if f.escapes then {ContainerEscape, NodeAccess} else {})
    + TokenOutcomes(f)
    + (if !f.defaultDeny && (f.escapes || f.UsableToken()) then {LateralMovement} else {})
  }

  lemma TokenReached(f: Facts)
    ensures Reached(TokenSteps(f)) == TokenOutcomes(f)
  {
    if f.UsableToken() {
      var rest := TokenSteps(f)[1..];
      assert TokenSteps(f) == [TOKEN] + rest;
      ReachedConcat([TOKEN], rest);
      ReachedStep([], TOKEN);
      if f.admin {
        ReachedStep([], rest[0]);
      } else if f.secrets && f.pods {
        ReachedStep([], rest[0]);
        ReachedStep([rest[0]], rest[1]);
      } else {
        ReachedStep([], rest[0]);
      }
    }
  }

  lemma EntryReached(f: Facts)
    ensures Reached(EntrySteps(f)) == if f.service.Some? then {NetworkReachable} else {}
  {
    if f.service.Some? { ReachedStep([], EntrySteps(f)[0]); }
  }

  lemma EscapeReached(f: Facts)
    ensures Reached(EscapeSteps(f)) == if f.escapes then {ContainerEscape, NodeAccess} else {}
  {
    if f.escapes {
      var e := EscapeSteps(f);
      ReachedStep([], e[0]);
      ReachedStep([e[0]], e[1]);
      assert e == [e[0]] + [e[1]];
    }
  }

  lemma LateralReached(f: Facts)
    ensures Reached(LateralSteps(f)) ==
      if !f.defaultDeny && (f.escapes || f.UsableToken()) then {LateralMovement} else {}
  {
    ReachedStep([], LATERAL);
  }

  lemma StepsReach(f: Facts)
    ensures Reached(Steps(f)) == Outcomes(f)
  {
    var e, x, t, l := EntrySteps(f), EscapeSteps(f), TokenSteps(f), LateralSteps(f);
    ReachedParts(e, x, t, l);
    EntryReached(f);
    EscapeReached(f);
    TokenReached(f);
    LateralReached(f);
  }

  lemma ReachedParts(e: seq<Step>, x: seq<Step>, t: seq<Step>, l: seq<Step>)
    ensures Reached(e + x + t + l) == Reached(e) + Reached(x) + Reached(t) + Reached(l)
  {
    ReachedConcat(e + x + t, l);
    ReachedConcat(e + x, t);
    ReachedConcat(e, x);
  }

  /** A chain's severity dominates what it reaches and is the severity of one of them or of its entry. */
  lemma SeverityOfSteps(start: Capability, steps: seq<Step>) returns (c: Capability)
    requires steps != []
    ensures var sev := Consider(SeverityOf(Chain(start, steps)), EndOf(start, steps));
      && (forall d :: d in Reached(steps) ==> CapSeverity(d).Rank() <= sev.Rank())
      && sev == CapSeverity(c) && (c == start || c in Reached(steps))
  {
    var hops := Chain(start, steps);
    SeverityIsMaximum(hops);
    ChainMentions(start, steps);
    c :| c in Mentioned(hops) && CapSeverity(c) == SeverityOf(hops);
  }

  /** Severity from the capabilities reached, whatever the steps. */
  lemma SeverityFromReach(start: Capability, steps: seq<Step>, takeover: bool, usable: bool)
    requires CapSeverity(start) == Low
    requires takeover ==> NodeAccess in Reached(steps) || ClusterAdmin in Reached(steps)
    requires !takeover && usable ==> SecretRead in Reached(steps) || PodCreate in Reached(steps)
    requires forall c :: c in Reached(steps) ==>
      CapSeverity(c).Rank() <= (if takeover then 5 else if usable then 4 else 3)
    ensures var sev := Consider(SeverityOf(Chain(start, steps)), EndOf(start, steps));
      && (takeover ==> sev == Critical)
      && (!takeover && usable ==> sev == High)
      && (!takeover && !usable ==> sev.Rank() < 4)
  {
    if steps != [] {
      var c := SeverityOfSteps(start, steps);
      StrongestOutcome(Consider(SeverityOf(Chain(start, steps)), EndOf(start, steps)), c, start,
                       Reached(steps), takeover, usable);
    }
  }

  lemma StrongestOutcome(sev: Severity, c: Capability, start: Capability, caps: set<Capability>,
                         takeover: bool, usable: bool)
    requires CapSeverity(start) == Low && sev == CapSeverity(c) && (c == start || c in caps)
    requires forall d :: d in caps ==> CapSeverity(d).Rank() <= sev.Rank()
    requires takeover ==> NodeAccess in caps || ClusterAdmin in caps
    requires !takeover && usable ==> SecretRead in caps || PodCreate in caps
    requires forall d :: d in caps ==>
      CapSeverity(d).Rank() <= (if takeover then 5 else if usable then 4 else 3)
    ensures takeover ==> sev == Critical
    ensures !takeover && usable ==> sev == High
    ensures !takeover && !usable ==> sev.Rank() < 4
  {
  }

  lemma OutcomesReached(f: Facts)
    ensures f.Takeover() ==> NodeAccess in Outcomes(f) || ClusterAdmin in Outcomes(f)
    ensures !f.Takeover() && f.UsableToken() ==> SecretRead in Outcomes(f) || PodCreate in Outcomes(f)
  {
  }

  lemma OutcomeBound(f: Facts, c: Capability)
    requires c in Outcomes(f)
    ensures CapSeverity(c).Rank() <= (if f.Takeover() then 5 else if f.UsableToken() then 4 else 3)
  {
  }

  function SeverityBound(f: Facts): int {
    if f.Takeover() then 5 else if f.UsableToken() then 4 else 3
  }

  lemma StepsBound(f: Facts)
    ensures forall c :: c in Reached(Steps(f)) ==> CapSeverity(c).Rank() <= SeverityBound(f)
  {
    StepsReach(f);
    forall c | c in Outcomes(f) ensures CapSeverity(c).Rank() <= SeverityBound(f) { OutcomeBound(f, c); }
  }

  lemma SeverityClosedForm(f: Facts)
    ensures var sev := Consider(SeverityOf(HopsOf(f)), EndOf(EntryCap(f), Steps(f)));
      && (f.Takeover() ==> sev == Critical)
      && (!f.Takeover() && f.UsableToken() ==> sev == High)
      && (!f.Takeover() && !f.UsableToken() ==> sev.Rank() < 4)
  {
    StepsBound(f);
    StepsReach(f);
    OutcomesReached(f);
    SeverityFromReach(EntryCap(f), Steps(f), f.Takeover(), f.UsableToken());
  }

  /**
   * A workload yields a path exactly when it escapes, or is reachable and carries a usable
   * token; the path is critical exactly when it reaches a node or cluster-admin, else high.
   */
  lemma ClosedForm(f: Facts, entry: ResourceRef, assumeBreach: bool)
    ensures var p := PathFrom(f, entry, assumeBreach);
      && (p.Some? <==> f.escapes || ((f.service.Some? || assumeBreach) && f.UsableToken()))
      && (p.Some? ==> p.value.severity == (if f.Takeover() then Critical else High))
  {
    hide Chain, SeverityOf, EndOf, Steps, PathTitle;
    SeverityClosedForm(f);
  }

  /** The fixed ladder every path climbs. */
  function Rung(c: Capability): int {
    match c
    case InternetIngress => 0
    case NetworkReachable => 1
    case ContainerEscape => 2
    case NodeAccess => 3
    case ServiceAccountToken => 4
    case SecretRead => 5
    case PodCreate => 6
    case ClusterAdmin => 7
    case LateralMovement => 8
    case _ => -1
  }

  ghost predicate Climbs(hops: seq<PathHop>) {
    forall i :: 0 <= i < |hops| ==>
      && hops[i].order == i + 1
      && (i > 0 ==> hops[i].from == hops[i - 1].to)
      && 0 <= Rung(hops[i].from) < Rung(hops[i].to)
  }

  /** Steps climb strictly, starting above rung `low` and ending at or below rung `high`. */
  ghost predicate StepsClimb(steps: seq<Step>, low: int, high: int) {
    && (forall i :: 0 <= i < |steps| ==> low < Rung(steps[i].to) <= high)
    && (forall i, j :: 0 <= i < j < |steps| ==> Rung(steps[i].to) < Rung(steps[j].to))
  }

  lemma StepsClimbConcat(a: seq<Step>, b: seq<Step>, low: int, mid: int, high: int)
    requires low <= mid <= high && StepsClimb(a, low, mid) && StepsClimb(b, mid, high)
    ensures StepsClimb(a + b, low, high)
  {
  }

  lemma ClimbsOne(s: Step, low: int, high: int)
    requires low < Rung(s.to) <= high
    ensures StepsClimb([s], low, high)
  {
  }

  lemma ClimbsTwo(s: Step, t: Step, low: int, high: int)
    requires low < Rung(s.to) < Rung(t.to) <= high
    ensures StepsClimb([s] + [t], low, high)
  {
  }

  lemma TokenClimbs(f: Facts)
    ensures StepsClimb(TokenSteps(f), 3, 7) && |TokenSteps(f)| <= 3
    ensures f.UsableToken() ==> |TokenSteps(f)| >= 2
  {
    if f.UsableToken() {
      hide StepsClimb;
      var t := TokenSteps(f);
      if f.admin {
        assert t == [TOKEN] + [ADMIN];
        ClimbsTwo(TOKEN, ADMIN, 3, 7);
      } else if f.secrets && f.pods {
        assert t == [TOKEN] + [SECRETS] + [PODS];
        ClimbsTwo(TOKEN, SECRETS, 3, 5);
        ClimbsOne(PODS, 5, 7);
        StepsClimbConcat([TOKEN] + [SECRETS], [PODS], 3, 5, 7);
      } else if f.secrets {
        assert t == [TOKEN] + [SECRETS];
        ClimbsTwo(TOKEN, SECRETS, 3, 7);
      } else {
        assert t == [TOKEN] + [PODS];
        ClimbsTwo(TOKEN, PODS, 3, 7);
      }
    }
  }

  lemma EntryClimbs(f: Facts)
    ensures StepsClimb(EntrySteps(f) + EscapeSteps(f), Rung(EntryCap(f)), 3)
    ensures |EntrySteps(f) + EscapeSteps(f)| <= 3
    ensures f.escapes ==> |EntrySteps(f) + EscapeSteps(f)| >= 2
  {
    StepsClimbConcat(EntrySteps(f), EscapeSteps(f), Rung(EntryCap(f)), 1, 3);
  }

  lemma StepsClimbLadder(f: Facts)
    ensures StepsClimb(Steps(f), Rung(EntryCap(f)), 8)
    ensures |Steps(f)| <= 7
    ensures f.escapes || f.UsableToken() ==> Steps(f) != []
  {
    var low := Rung(EntryCap(f));
    EntryClimbs(f);
    TokenClimbs(f);
    StepsClimbConcat(EntrySteps(f) + EscapeSteps(f), TokenSteps(f), low, 3, 7);
    StepsClimbConcat(InsideSteps(f), LateralSteps(f), low, 7, 8);
  }

  /** Hops are numbered from one, linked, strictly climb the ladder, and are at most seven. */
  lemma PathShape(f: Facts, entry: ResourceRef, assumeBreach: bool)
    requires PathFrom(f, entry, assumeBreach).Some?
    ensures var p := PathFrom(f, entry, assumeBreach).value;
      && p.entry == entry && Climbs(p.hops) && 1 <= |p.hops| <= 7
      && p.hops[0].from == EntryCap(f)
  {
    hide Chain, Steps, SeverityOf, StepsClimb, PathTitle;
    StepsClimbLadder(f);
    ClosedForm(f, entry, assumeBreach);
    ChainClimbs(EntryCap(f), Steps(f), 8);
  }

  lemma ChainClimbs(start: Capability, steps: seq<Step>, high: int)
    requires 0 <= Rung(start) && StepsClimb(steps, Rung(start), high)
    ensures Climbs(Chain(start, steps))
    ensures steps != [] ==> Chain(start, steps)[0].from == start
  {
    var hops := Chain(start, steps);
    forall i | 0 <= i < |hops|
      ensures && hops[i].order == i + 1
              && (i > 0 ==> hops[i].from == hops[i - 1].to)
              && 0 <= Rung(hops[i].from) < Rung(hops[i].to)
    {
      ChainShape(start, steps, i);
      if i > 0 { ChainShape(start, steps, i - 1); }
    }
    if steps != [] { ChainShape(start, steps, 0); }
  }

  // ----- headline -----

  lemma {:induction false} ApexIsHighest(start: Capability, steps: seq<Step>)
    requires steps != []
    ensures var apex := ApexCap(Chain(start, steps));
      apex in Reached(steps) && forall c :: c in Reached(steps) ==> CapPrecedence(c) <= CapPrecedence(apex)
  {
    var front := steps[..|steps| - 1];
    var hops := Chain(start, steps);
    assert hops[..|hops| - 1] == Chain(start, front);
    if front != [] {
      ApexIsHighest(start, front);
    }
  }

  function Headline(f: Facts): Capability {
    if f.automount && f.admin then ClusterAdmin
    else if f.escapes then NodeAccess
    else if f.secrets then SecretRead
    else PodCreate
  }

  lemma HeadlineReached(f: Facts)
    requires f.escapes || f.UsableToken()
    ensures Headline(f) in Outcomes(f)
  {
  }

  lemma HeadlineDominates(f: Facts, c: Capability)
    requires f.escapes || f.UsableToken()
    requires c in Outcomes(f) && c != Headline(f)
    ensures CapPrecedence(c) < CapPrecedence(Headline(f))
  {
  }

  /** A path is always headlined by a concrete outcome, cluster-admin before node access. */
  lemma HeadlineClosedForm(f: Facts, entry: ResourceRef, assumeBreach: bool)
    requires PathFrom(f, entry, assumeBreach).Some?
    ensures ApexCap(HopsOf(f)) == Headline(f)
  {
    StepsClimbLadder(f);
    ClosedForm(f, entry, assumeBreach);
    StepsReach(f);
    ApexIsHighest(EntryCap(f), Steps(f));
    HeadlineReached(f);
    if ApexCap(HopsOf(f)) != Headline(f) {
      HeadlineDominates(f, ApexCap(HopsOf(f)));
    }
  }

  /** Stronger facts never lose a path nor lower its severity. */
  lemma StrongerFacts(f: Facts, f': Facts, entry: ResourceRef, ab: bool, ab': bool)
    requires (f.service.Some? ==> f'.service.Some?) && (ab ==> ab')
    requires f.escapes == f'.escapes && f.automount == f'.automount
    requires (f.admin ==> f'.admin) && (f.secrets ==> f'.secrets) && (f.pods ==> f'.pods)
    ensures var p, p' := PathFrom(f, entry, ab), PathFrom(f', entry, ab');
      p.Some? ==> p'.Some? && p.value.severity.Rank() <= p'.value.severity.Rank()
  {
    ClosedForm(f, entry, ab);
    ClosedForm(f', entry, ab');
  }

  /** Default-deny removes the final lateral-movement hop and nothing else. */
  lemma DefaultDenyStopsLateral(f: Facts, entry: ResourceRef, ab: bool)
    requires !f.defaultDeny
    ensures var f' := f.(defaultDeny := true);
      var p, p' := PathFrom(f, entry, ab), PathFrom(f', entry, ab);
      && (p.Some? <==> p'.Some?)
      && (p.Some? ==>
            && p.value.severity == p'.value.severity
            && p.value.hops != [] && p.value.hops[|p.value.hops| - 1].to == LateralMovement
            && p'.value.hops == p.value.hops[..|p.value.hops| - 1])
  {
    hide Chain, SeverityOf;
    var f' := f.(defaultDeny := true);
    ClosedForm(f, entry, ab);
    ClosedForm(f', entry, ab);
    assert InsideSteps(f') == InsideSteps(f) == Steps(f');
    ChainStep(EntryCap(f), InsideSteps(f), LATERAL);
  }

  // ----- what the hops of a path are -----

  /** A path steps to a capability exactly when the facts lead to it. */
  lemma HopsReach(f: Facts, c: Capability)
    ensures (exists h :: h in HopsOf(f) && h.to == c) <==> c in Outcomes(f)
  {
    hide Chain, Steps, Outcomes;
    StepsReach(f);
    if c in Outcomes(f) {
      var h := ReachedByHop(EntryCap(f), Steps(f), c);
    }
    if h :| h in HopsOf(f) && h.to == c {
      var i :| 0 <= i < |HopsOf(f)| && HopsOf(f)[i] == h;
      ChainShape(EntryCap(f), Steps(f), i);
      StepReached(Steps(f), i);
    }
  }

  lemma {:induction false} StepReached(steps: seq<Step>, i: nat)
    requires i < |steps|
    ensures steps[i].to in Reached(steps)
  {
    if i < |steps| - 1 { StepReached(steps[..|steps| - 1], i); }
  }

  /** A path starts on the internet exactly when a service exposes its workload. */
  lemma HopsFromInternet(f: Facts)
    ensures (exists h :: h in HopsOf(f) && (h.from == InternetIngress || h.to == InternetIngress)) <==> f.service.Some?
  {
    hide Chain, Steps;
    StepsReach(f);
    HopsReach(f, InternetIngress);
    if f.service.Some? {
      EntryFirst(f);
      ChainShape(EntryCap(f), Steps(f), 0);
      assert HopsOf(f)[0] in HopsOf(f);
    }
    if h :| h in HopsOf(f) && h.from == InternetIngress {
      var i :| 0 <= i < |HopsOf(f)| && HopsOf(f)[i] == h;
      ChainShape(EntryCap(f), Steps(f), i);
      if i > 0 { StepReached(Steps(f), i - 1); }
    }
  }

  lemma EntryFirst(f: Facts)
    requires f.service.Some?
    ensures Steps(f) != []
  {
  }

  /** The ATT&CK technique a hop to a capability is tagged with. */
  function Tag(c: Capability): Technique {
    match c
    case NetworkReachable => T1190
    case ContainerEscape | NodeAccess => T1611
    case ServiceAccountToken => T1552_001
    case ClusterAdmin => T1078
    case SecretRead => T1552
    case PodCreate => T1610
    case _ => T1021
  }

  ghost predicate Tagged(steps: seq<Step>) {
    forall i :: 0 <= i < |steps| ==> steps[i].technique == Tag(steps[i].to)
  }

  lemma StepsTagged(f: Facts)
    ensures Tagged(Steps(f))
  {
    assert Tagged(EntrySteps(f)) && Tagged(EscapeSteps(f)) && Tagged(LateralSteps(f));
    assert Tagged(TokenSteps(f)) by { TokensTagged(f); }
  }

  lemma TokensTagged(f: Facts)
    ensures Tagged(TokenSteps(f))
  {
    var last := if f.admin then [ADMIN] else (if f.secrets then [SECRETS] else []) + (if f.pods then [PODS] else []);
    assert Tagged([TOKEN]) && Tagged([ADMIN]) && Tagged([SECRETS]) && Tagged([PODS]);
    assert f.UsableToken() ==> TokenSteps(f) == [TOKEN] + last;
    hide Tag;
  }

  /** Every hop is tagged with the technique of the capability it reaches. */
  lemma HopsTagged(f: Facts)
    ensures forall h :: h in HopsOf(f) ==> h.technique == Tag(h.to)
  {
    hide Chain, Steps, Tag;
    StepsTagged(f);
    forall i | 0 <= i < |HopsOf(f)| ensures HopsOf(f)[i].technique == Tag(HopsOf(f)[i].to) {
      ChainTechnique(EntryCap(f), Steps(f), i);
      ChainShape(EntryCap(f), Steps(f), i);
    }
  }

  lemma {:induction false} ChainTechnique(start: Capability, steps: seq<Step>, i: nat)
    requires i < |steps|
    ensures Chain(start, steps)[i].technique == steps[i].technique
    ensures Chain(start, steps)[i].narrative == steps[i].via
  {
    if i < |steps| - 1 { ChainTechnique(start, steps[..|steps| - 1], i); }
  }

  /** A path's title names its worst outcome. */
  lemma TitleClosedForm(f: Facts, entry: ResourceRef, assumeBreach: bool)
    requires PathFrom(f, entry, assumeBreach).Some?
    ensures PathFrom(f, entry, assumeBreach).value.title ==
      (if f.automount && f.admin then "Cluster-admin takeover via " + entry.name
       else if f.escapes then "Node breakout via " + entry.name
       else if f.secrets then "Secret exfiltration via " + entry.name
       else "Pod-create pivot via " + entry.name)
  {
    hide Chain, Steps, SeverityOf, ApexCap;
    HeadlineClosedForm(f, entry, assumeBreach);
  }
}
