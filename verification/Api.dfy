/** The public report types: severities, capabilities, findings, paths, posture. */
module Api {
  import opened Common

  /** `Other` is any severity string outside the five named levels. */
  datatype Severity = Critical | High | Medium | Low | Info | Other(name: string) {
    function Rank(): int {
      match this
      case Critical => 5
      case High => 4
      case Medium => 3
      case Low => 2
      case Info => 1
      case Other(_) => 0
    }
  }

  /** Attacker primitives; `NoCapability` is the empty string. */
  datatype Capability =
    | NoCapability | InternetIngress | NetworkReachable | ContainerEscape | NodeAccess
    | HostFilesystemAccess | HostNetworkAccess | HostProcessAccess | HostIPCAccess
    | ServiceAccountToken | SecretRead | PodCreate | BroadAPIAccess | ClusterAdmin
    | LateralMovement | ResourceExhaustion | RootInContainer | PrivEsc

  datatype ResourceRef = ResourceRef(kind: string, namespace: string, name: string)

  /** `detail` stands for the evidence; titles, remediation and references are left out. */
  datatype Finding = Finding(id: string, severity: Severity, category: string, resource: ResourceRef, detail: string)

  /** The ATT&CK techniques hops are tagged with. */
  datatype Technique = T1190 | T1611 | T1552_001 | T1078 | T1552 | T1610 | T1021

  /** `narrative` keeps only the name the sentence is about. */
  datatype PathHop = PathHop(order: int, from: Capability, to: Capability, enabledBy: string,
                             technique: Technique, narrative: string)

  datatype AttackPath = AttackPath(id: string, title: string, severity: Severity, entry: ResourceRef,
                                   hops: seq<PathHop>)

  datatype ControlBreach = ControlBreach(controlId: string, title: string, findings: seq<string>)

  datatype FrameworkResult = FrameworkResult(framework: string, version: string, assessed: nat, breached: nat,
                                             passed: nat, passRate: real, breaches: seq<ControlBreach>,
                                             disclaimer: string)

  datatype PostureSummary = PostureSummary(totalFindings: nat, bySeverity: map<Severity, nat>, criticalPaths: nat,
                                           controlsAssessed: nat, controlsBreached: nat, overallPassRate: real)

  datatype RiskFactor = RiskFactor(name: string, points: int)

  datatype RiskScore = RiskScore(findingId: string, severity: Severity, resource: ResourceRef, score: int,
                                 factors: seq<RiskFactor>)

  datatype Coverage = Coverage(discovered: nat, assessable: nat, skipped: nat)

  datatype Report = Report(generatedAt: string, source: string, profile: string, findings: seq<Finding>,
                           paths: seq<AttackPath>, posture: PostureSummary, compliance: seq<FrameworkResult>,
                           coverage: Option<Coverage>, topRisks: seq<RiskScore>)

  /** A severity missing from the tally counts zero, as in a Go map. */
  function Count(m: map<Severity, nat>, s: Severity): nat {
    if s in m then m[s] else 0
  }

  function SumAssessed(fws: seq<FrameworkResult>): nat {
    if fws == [] then 0 else SumAssessed(fws[..|fws| - 1]) + fws[|fws| - 1].assessed
  }

  function SumBreached(fws: seq<FrameworkResult>): nat {
    if fws == [] then 0 else SumBreached(fws[..|fws| - 1]) + fws[|fws| - 1].breached
  }

  function SumPassed(fws: seq<FrameworkResult>): nat {
    if fws == [] then 0 else SumPassed(fws[..|fws| - 1]) + fws[|fws| - 1].passed
  }

  const EMPTY_POSTURE := PostureSummary(0, map[], 0, 0, 0, 0.0)

  const EMPTY_REPORT := Report("", "", "", [], [], EMPTY_POSTURE, [], None, [])
}
