/**
 * Attack paths against detection: each hop of each path rests on a finding the scan
 * reports about an object on that path, with two exceptions; a clean scan has no path.
 */
module ChainSoundness {
  import opened Common
  import opened Api
  import opened Graph
  import opened Ladder
  import opened Attack
  import opened Detection
  import C = Checks

  // ----- the two packages read the graph the same way -----

  lemma AutomountAgree(g: Graph, w: Workload)
    ensures AutomountOn(g, w) == C.AutomountEffective(g, w)
  {
  }

  lemma RoleLookupAgree(g: Graph, ref: RoleRef, bindingName: string)
    ensures var gr := ResolveRef(g, ref, bindingName);
      && C.FindRoleRules(g, ref.kind, ref.name) == (if gr.resolved then Some(gr.rules) else None)
      && (AdminGrant(gr) <==> C.AdminReason(g, ref))
  {
  }

  /** Every capability that allows an escape is one the scan calls dangerous. */
  lemma EscapeCapsAreDangerous(n: string)
    requires ToUpper(n) in ESCAPE_CAPS
    ensures C.IsDangerousCap(n)
  {
    hide ToUpper;
  }

  // ----- the objects behind a grant -----

  /** A binding that grants the workload's ServiceAccount a role. */
  ghost predicate BindsAccount(g: Graph, w: Workload, b: Binding) {
    || (b in g.clusterRoleBindings && Grants(b, true, w.namespace, w.serviceAccountName))
    || (b in g.roleBindings && Grants(b, false, w.namespace, w.serviceAccountName))
  }

  lemma NamesAccount(b: Binding, cluster: bool, namespace: string, name: string)
    requires Grants(b, cluster, namespace, name)
    ensures C.HasPrivSubject(b.subjects)
  {
  }

  lemma AdminBindingOf(g: Graph, w: Workload) returns (b: Binding)
    requires Admin(g, w)
    ensures BindsAccount(g, w, b) && C.AdminReason(g, b.roleRef) && C.HasPrivSubject(b.subjects)
  {
    var gr :| gr in Granted(g, w.namespace, w.serviceAccountName) && AdminGrant(gr);
    hide Granted, ResolveRef, AdminGrant, C.AdminReason, C.HasPrivSubject, SubjectsInclude;
    GrantedMembers(g, w.namespace, w.serviceAccountName, gr);
    b :| GrantedBy(g, b, w.namespace, w.serviceAccountName, gr);
    RoleLookupAgree(g, b.roleRef, b.name);
    NamesAccount(b, b in g.clusterRoleBindings && Grants(b, true, w.namespace, w.serviceAccountName),
                 w.namespace, w.serviceAccountName);
  }

  /** Role objects carry the kind of the list they are in, as the graph builder files them. */
  ghost predicate ShapedByBuild(g: Graph) {
    && (forall r :: r in g.roles ==> r.kind == "Role")
    && (forall r :: r in g.clusterRoles ==> r.kind == "ClusterRole")
  }

  /** A role object a grant of the workload's ServiceAccount refers to. */
  ghost predicate GrantedToAccount(g: Graph, w: Workload, r: Role) {
    && r in C.AllRoles(g)
    && exists gr :: gr in Granted(g, w.namespace, w.serviceAccountName)
         && gr.roleRef.kind == r.kind && gr.roleRef.name == r.name
  }

  /** The role object behind a resolved grant. */
  lemma ResolvedRole(g: Graph, ref: RoleRef, bindingName: string) returns (r: Role)
    requires ShapedByBuild(g) && ResolveRef(g, ref, bindingName).resolved
    ensures r in C.AllRoles(g) && r.kind == ref.kind && r.name == ref.name
    ensures C.RulesOf(g, r) == ResolveRef(g, ref, bindingName).rules
  {
    if ref.kind == "ClusterRole" {
      r :| r in g.clusterRoles && r.name == ref.name;
    } else {
      r :| r in g.roles && r.name == ref.name;
    }
  }

  /** A rule that is not cluster-admin's implicit one comes from a role the check visits. */
  lemma GrantingRole(g: Graph, w: Workload, grants: PolicyRule -> bool) returns (r: Role)
    requires ShapedByBuild(g) && !Admin(g, w)
    requires exists rule :: rule in Rules(g, w.namespace, w.serviceAccountName) && grants(rule)
    ensures GrantedToAccount(g, w, r) && RoleGrants(g, r, grants)
  {
    hide Granted;
    var rule :| rule in Rules(g, w.namespace, w.serviceAccountName) && grants(rule);
    RulesMembers(g, w.namespace, w.serviceAccountName, rule);
    var gr :| gr in Granted(g, w.namespace, w.serviceAccountName) && rule in RulesOfGrant(gr);
    assert !AdminGrant(gr);
    assert rule in gr.rules;
    GrantedMembers(g, w.namespace, w.serviceAccountName, gr);
    var b :| GrantedBy(g, b, w.namespace, w.serviceAccountName, gr);
    r := ResolvedRole(g, b.roleRef, b.name);
  }

  // ----- soundness of every hop -----

  /** The check a path cites for reaching `c`. */
  function Cited(f: Facts, c: Capability): string {
    match c
    case NetworkReachable => KG_EXPOSURE
    case ContainerEscape => f.escapeBy
    case NodeAccess => f.nodeBy
    case ServiceAccountToken => KG_AUTOMOUNT
    case ClusterAdmin => KG_CLUSTER_ADMIN
    case SecretRead => KG_SECRETS
    case PodCreate => KG_POD_CREATE
    case _ => KG_NO_NETPOL
  }

  ghost predicate StepsCite(f: Facts, steps: seq<Step>, caps: set<Capability>) {
    forall i :: 0 <= i < |steps| ==> steps[i].to in caps && steps[i].enabler == Cited(f, steps[i].to)
  }

  lemma StepsCiteOutcomes(f: Facts)
    ensures StepsCite(f, Steps(f), Outcomes(f))
  {
    assert StepsCite(f, EntrySteps(f), Outcomes(f));
    assert StepsCite(f, EscapeSteps(f), Outcomes(f));
    assert StepsCite(f, TokenSteps(f), Outcomes(f)) by { TokenStepsCite(f); }
    assert StepsCite(f, LateralSteps(f), Outcomes(f));
  }

  lemma CitedTokens(f: Facts)
    ensures TOKEN.enabler == Cited(f, ServiceAccountToken) && ADMIN.enabler == Cited(f, ClusterAdmin)
    ensures SECRETS.enabler == Cited(f, SecretRead) && PODS.enabler == Cited(f, PodCreate)
  {
  }

  lemma StepsCiteAppend(f: Facts, a: seq<Step>, s: Step, caps: set<Capability>)
    requires StepsCite(f, a, caps) && s.to in caps && s.enabler == Cited(f, s.to)
    ensures StepsCite(f, a + [s], caps)
  {
  }

  lemma TokenStepsCite(f: Facts)
    ensures StepsCite(f, TokenSteps(f), Outcomes(f))
  {
    if f.UsableToken() {
      var caps, t := Outcomes(f), TokenSteps(f);
      CitedTokens(f);
      assert StepsCite(f, [TOKEN], caps);
      hide Cited, StepsCite;
      if f.admin {
        assert t == [TOKEN] + [ADMIN];
        StepsCiteAppend(f, [TOKEN], ADMIN, caps);
      } else if f.secrets && f.pods {
        assert t == [TOKEN] + [SECRETS] + [PODS];
        StepsCiteAppend(f, [TOKEN], SECRETS, caps);
        StepsCiteAppend(f, [TOKEN] + [SECRETS], PODS, caps);
      } else if f.secrets {
        assert t == [TOKEN] + [SECRETS];
        StepsCiteAppend(f, [TOKEN], SECRETS, caps);
      } else {
        assert t == [TOKEN] + [PODS];
        StepsCiteAppend(f, [TOKEN], PODS, caps);
      }
    }
  }

  /** The scan reports the cited check about an object this hop goes through. */
  ghost predicate Supported(g: Graph, w: Workload, scan: seq<Finding>, h: PathHop) {
    match h.to
    case NetworkReachable =>
      exists svc :: svc in g.services && Fronts(g, svc, w.Ref()) && Fired(scan, h.enabledBy, svc.Ref())
    case ContainerEscape | NodeAccess | ServiceAccountToken => Fired(scan, h.enabledBy, w.Ref())
    case ClusterAdmin => exists b :: BindsAccount(g, w, b) && Fired(scan, h.enabledBy, b.Ref())
    case SecretRead | PodCreate => exists r :: GrantedToAccount(g, w, r) && Fired(scan, h.enabledBy, r.Ref())
    case _ => Fired(scan, h.enabledBy, C.NamespaceRef(w.namespace))
  }

  /** The node hop cites KG-001 although nothing with this identity is privileged. */
  ghost predicate CapabilityOnlyEscape(g: Graph, w: Workload) {
    !MountsEscapePath(w) && forall v :: v in g.workloads && v.Ref() == w.Ref() ==> !HasPrivileged(v)
  }

  lemma EscapeSupported(g: Graph, p: C.Profile, other: string -> seq<Finding>, w: Workload)
    requires RunsAll(p) && w in g.workloads && Escapes(w)
    ensures Fired(C.ScanOf(g, p, other), EscapeEnabler(w), w.Ref())
  {
    hide C.ScanOf, Runs, HasPrivileged, AddsCapFrom, MountsEscapePath, AddsDangerousCap, Fired;
    if HasPrivileged(w) {
      CheckRuns(p, C.Privileged);
      DetectsFires(g, p, other, C.Privileged, w.Ref());
    } else if AddsCapFrom(w, ESCAPE_CAPS) {
      EscapeCapDetected(w);
      CheckRuns(p, C.DangerousCaps);
      DetectsFires(g, p, other, C.DangerousCaps, w.Ref());
    } else {
      EscapeMountDetected(w);
      CheckRuns(p, C.HostPath);
      DetectsFires(g, p, other, C.HostPath, w.Ref());
    }
  }

  lemma EscapeCapDetected(w: Workload)
    requires AddsCapFrom(w, ESCAPE_CAPS)
    ensures AddsDangerousCap(w)
  {
    hide ToUpper, C.IsDangerousCap, ESCAPE_CAPS;
    var k :| k in w.podSpec.containers && exists n :: n in k.capsAdd && ToUpper(n) in ESCAPE_CAPS;
    var n :| n in k.capsAdd && ToUpper(n) in ESCAPE_CAPS;
    EscapeCapsAreDangerous(n);
  }

  lemma EscapeMountDetected(w: Workload)
    requires MountsEscapePath(w)
    ensures MountsHostPath(w)
  {
    hide ESCAPE_HOST_PATHS;
  }

  /** Citing KG-002 is always backed; citing KG-001 exactly when something with this identity is privileged. */
  lemma NodeSupported(g: Graph, p: C.Profile, other: string -> seq<Finding>, w: Workload)
    requires RunsAll(p) && OwnIds(other) && w in g.workloads
    ensures Fired(C.ScanOf(g, p, other), NodeEnabler(w), w.Ref()) <==> !CapabilityOnlyEscape(g, w)
  {
    hide C.ScanOf, Runs, HasPrivileged, MountsEscapePath, Fired;
    if MountsEscapePath(w) {
      EscapeMountDetected(w);
      CheckRuns(p, C.HostPath);
      DetectsFires(g, p, other, C.HostPath, w.Ref());
    } else {
      CheckRuns(p, C.Privileged);
      ScanIsExact(g, p, other, C.Privileged, w.Ref());
    }
  }

  lemma LateralSupported(g: Graph, p: C.Profile, other: string -> seq<Finding>, w: Workload)
    requires RunsAll(p) && OwnIds(other) && w in g.workloads && !HasDefaultDeny(g, w.namespace)
    ensures Fired(C.ScanOf(g, p, other), KG_NO_NETPOL, C.NamespaceRef(w.namespace)) <==> w.namespace != ""
  {
    hide C.ScanOf, Runs, HasDefaultDeny, Fired;
    CheckRuns(p, C.NetworkPolicies);
    ScanIsExact(g, p, other, C.NetworkPolicies, C.NamespaceRef(w.namespace));
  }

  lemma TokenSupported(g: Graph, p: C.Profile, other: string -> seq<Finding>, w: Workload)
    requires RunsAll(p) && w in g.workloads && AutomountOn(g, w)
    ensures Fired(C.ScanOf(g, p, other), KG_AUTOMOUNT, w.Ref())
  {
    AutomountAgree(g, w);
    hide C.ScanOf, Runs, AutomountOn, C.AutomountEffective, Fired;
    CheckRuns(p, C.Automount);
    DetectsFires(g, p, other, C.Automount, w.Ref());
  }

  lemma AdminSupported(g: Graph, p: C.Profile, other: string -> seq<Finding>, w: Workload)
    requires RunsAll(p) && Admin(g, w)
    ensures exists b :: BindsAccount(g, w, b) && Fired(C.ScanOf(g, p, other), KG_CLUSTER_ADMIN, b.Ref())
  {
    hide C.ScanOf, Runs, Admin, Grants, C.AdminReason, C.HasPrivSubject, Fired;
    var b := AdminBindingOf(g, w);
    assert BindsAdmin(g, b);
    CheckRuns(p, C.AdminBinding);
    DetectsFires(g, p, other, C.AdminBinding, b.Ref());
  }

  lemma GrantedIsVisited(g: Graph, w: Workload, r: Role)
    requires GrantedToAccount(g, w, r)
    ensures r in C.AllRoles(g)
  {
  }

  lemma SecretsSupported(g: Graph, p: C.Profile, other: string -> seq<Finding>, w: Workload)
    requires RunsAll(p) && ShapedByBuild(g) && !Admin(g, w) && Secrets(g, w)
    ensures exists r :: GrantedToAccount(g, w, r) && Fired(C.ScanOf(g, p, other), KG_SECRETS, r.Ref())
  {
    hide C.ScanOf, Runs, Admin, Rules, RoleGrants, GrantedToAccount, Fired;
    var r := GrantingRole(g, w, GrantsSecrets);
    GrantedIsVisited(g, w, r);
    CheckRuns(p, C.SecretsAccess);
    DetectsFires(g, p, other, C.SecretsAccess, r.Ref());
  }

  lemma PodsSupported(g: Graph, p: C.Profile, other: string -> seq<Finding>, w: Workload)
    requires RunsAll(p) && ShapedByBuild(g) && !Admin(g, w) && Pods(g, w)
    ensures exists r :: GrantedToAccount(g, w, r) && Fired(C.ScanOf(g, p, other), KG_POD_CREATE, r.Ref())
  {
    hide C.ScanOf, Runs, Admin, Rules, RoleGrants, GrantedToAccount, Fired;
    var r := GrantingRole(g, w, GrantsPodCreate);
    GrantedIsVisited(g, w, r);
    CheckRuns(p, C.PodCreation);
    DetectsFires(g, p, other, C.PodCreation, r.Ref());
  }

  lemma EntrySupported(g: Graph, p: C.Profile, other: string -> seq<Finding>, w: Workload)
    requires RunsAll(p) && Exposed(g, w)
    ensures exists svc :: svc in g.services && Fronts(g, svc, w.Ref())
              && Fired(C.ScanOf(g, p, other), KG_EXPOSURE, svc.Ref())
  {
    hide C.ScanOf, Runs, Fired, Selects;
    var svc :| svc in g.services && Fronts(g, svc, w.Ref());
    CheckRuns(p, C.Exposure);
    DetectsFires(g, p, other, C.Exposure, svc.Ref());
  }

  /** The exceptions, exactly. */
  ghost predicate Unsupported(g: Graph, w: Workload, c: Capability) {
    (c == NodeAccess && CapabilityOnlyEscape(g, w)) || (c == LateralMovement && w.namespace == "")
  }

  /** Each capability a path reaches rests on the fact it was derived from. */
  lemma OutcomeMeaning(f: Facts, c: Capability)
    requires c in Outcomes(f)
    ensures match c
      case NetworkReachable => f.service.Some?
      case ContainerEscape | NodeAccess => f.escapes
      case ServiceAccountToken => f.automount
      case ClusterAdmin => f.admin
      case SecretRead => f.secrets && !f.admin
      case PodCreate => f.pods && !f.admin
      case _ => c == LateralMovement && !f.defaultDeny
  {
  }

  lemma OutcomeSupported(g: Graph, p: C.Profile, other: string -> seq<Finding>, w: Workload, h: PathHop)
    requires RunsAll(p) && OwnIds(other) && ShapedByBuild(g) && w in g.workloads
    requires h.to in Outcomes(FactsOf(g, w)) && h.enabledBy == Cited(FactsOf(g, w), h.to)
    ensures Supported(g, w, C.ScanOf(g, p, other), h) <==> !Unsupported(g, w, h.to)
  {
    hide C.ScanOf, C.REGISTRY, Fired, CapabilityOnlyEscape, Escapes, EscapeEnabler, NodeEnabler, AutomountOn,
      Admin, Secrets, Pods, HasDefaultDeny, BindsAccount, GrantedToAccount, ExposingService, Outcomes, RunsAll;
    OutcomeMeaning(FactsOf(g, w), h.to);
    match h.to
    case NetworkReachable => EntrySupported(g, p, other, w);
    case ContainerEscape => EscapeSupported(g, p, other, w);
    case NodeAccess => NodeSupported(g, p, other, w);
    case ServiceAccountToken => TokenSupported(g, p, other, w);
    case ClusterAdmin => AdminSupported(g, p, other, w);
    case SecretRead => SecretsSupported(g, p, other, w);
    case PodCreate => PodsSupported(g, p, other, w);
    case _ => LateralSupported(g, p, other, w);
  }

  /**
   * On every graph the builder makes, each hop of each path cites a check the scan fires about
   * an object on that path, except exactly the node hop of a capability-only escape and the
   * lateral hop of a workload without a namespace.
   */
  lemma ChainSound(g: Graph, p: C.Profile, other: string -> seq<Finding>, w: Workload, assumeBreach: bool)
    requires RunsAll(p) && OwnIds(other) && ShapedByBuild(g) && w in g.workloads
    ensures var path := PathFor(g, w, assumeBreach);
      path.Some? ==> forall h :: h in path.value.hops ==>
        (Supported(g, w, C.ScanOf(g, p, other), h) <==> !Unsupported(g, w, h.to))
  {
    hide C.ScanOf, C.REGISTRY, FactsOf, Supported, Unsupported, Chain, SeverityOf, Steps, Outcomes, Cited;
    var f := FactsOf(g, w);
    var hops := HopsOf(f);
    forall i | 0 <= i < |hops|
      ensures Supported(g, w, C.ScanOf(g, p, other), hops[i]) <==> !Unsupported(g, w, hops[i].to)
    {
      HopCites(f, i);
      OutcomeSupported(g, p, other, w, hops[i]);
    }
  }

  lemma HopCites(f: Facts, i: nat)
    requires i < |HopsOf(f)|
    ensures HopsOf(f)[i].to in Outcomes(f) && HopsOf(f)[i].enabledBy == Cited(f, HopsOf(f)[i].to)
  {
    hide Chain, Steps, Outcomes, Cited;
    ChainShape(EntryCap(f), Steps(f), i);
    StepsCiteOutcomes(f);
  }

  // ----- both exceptions happen -----

  /** One pod that adds the SYS_ADMIN capability and nothing else. */
  const ADMIN_POD := Workload("Pod", "", "agent", "default", map[],
                              PodSpec(Some(false), [], [Container("main", false, ["SYS_ADMIN"])]))

  const ADMIN_POD_GRAPH := Graph([ADMIN_POD], [], [], [], [], [], [], [])

  /** Its path has a node hop and a lateral hop that no finding backs. */
  lemma BothExceptionsHappen(p: C.Profile, other: string -> seq<Finding>)
    requires RunsAll(p) && OwnIds(other)
    ensures var path := PathFor(ADMIN_POD_GRAPH, ADMIN_POD, false);
      && path.Some?
      && exists h, l :: h in path.value.hops && l in path.value.hops && h.to == NodeAccess && l.to == LateralMovement
           && !Supported(ADMIN_POD_GRAPH, ADMIN_POD, C.ScanOf(ADMIN_POD_GRAPH, p, other), h)
           && !Supported(ADMIN_POD_GRAPH, ADMIN_POD, C.ScanOf(ADMIN_POD_GRAPH, p, other), l)
  {
    hide C.ScanOf, C.REGISTRY, FactsOf, Chain, Steps, SeverityOf, Escapes, RunsAll, Supported, CapabilityOnlyEscape;
    AdminPodFacts();
    PathExists(ADMIN_POD_GRAPH, ADMIN_POD, false);
    ChainSound(ADMIN_POD_GRAPH, p, other, ADMIN_POD, false);
    var f := FactsOf(ADMIN_POD_GRAPH, ADMIN_POD);
    StepsReach(f);
    var h := ReachedByHop(EntryCap(f), Steps(f), NodeAccess);
    var l := ReachedByHop(EntryCap(f), Steps(f), LateralMovement);
  }

  lemma AdminPodFacts()
    ensures Escapes(ADMIN_POD) && CapabilityOnlyEscape(ADMIN_POD_GRAPH, ADMIN_POD)
    ensures FactsOf(ADMIN_POD_GRAPH, ADMIN_POD).escapes && !FactsOf(ADMIN_POD_GRAPH, ADMIN_POD).defaultDeny
  {
    hide ESCAPE_CAPS, ToUpper, Admin, Secrets, Pods, ExposingService, AutomountOn;
    SysAdminEscapes();
    var k := ADMIN_POD.podSpec.containers[0];
    assert k in ADMIN_POD.podSpec.containers && k.capsAdd[0] in k.capsAdd;
    assert AddsCapFrom(ADMIN_POD, ESCAPE_CAPS);
  }

  lemma SysAdminEscapes()
    ensures ToUpper("SYS_ADMIN") in ESCAPE_CAPS
  {
    assert ToUpper("SYS_ADMIN") == "SYS_ADMIN";
  }

  // ----- a clean scan has no attack path -----

  /** If the checks behind escapes and tokens report nothing, no workload has a path, on any graph. */
  lemma CleanScanNoPath(g: Graph, p: C.Profile, other: string -> seq<Finding>, assumeBreach: bool)
    requires Runs(p, C.Privileged) && Runs(p, C.HostPath) && Runs(p, C.DangerousCaps) && Runs(p, C.Automount)
    requires C.ScanOf(g, p, other) == []
    ensures Paths(g, assumeBreach) == []
  {
    hide C.ScanOf, Runs, Escapes, PathFor, AutomountOn, Admin, Secrets, Pods, ExposingService;
    forall w | w in g.workloads ensures PathFor(g, w, assumeBreach) == None {
      CleanWorkload(g, p, other, w);
      PathExists(g, w, assumeBreach);
    }
    NoPaths(g, g.workloads, assumeBreach);
  }

  lemma CleanWorkload(g: Graph, p: C.Profile, other: string -> seq<Finding>, w: Workload)
    requires Runs(p, C.Privileged) && Runs(p, C.HostPath) && Runs(p, C.DangerousCaps) && Runs(p, C.Automount)
    requires C.ScanOf(g, p, other) == [] && w in g.workloads
    ensures !Escapes(w) && !AutomountOn(g, w)
  {
    AutomountAgree(g, w);
    hide C.ScanOf, Runs, HasPrivileged, AddsCapFrom, MountsEscapePath, AddsDangerousCap, MountsHostPath, AutomountOn,
      C.AutomountEffective;
    if HasPrivileged(w) { DetectsFires(g, p, other, C.Privileged, w.Ref()); }
    if AddsCapFrom(w, ESCAPE_CAPS) {
      EscapeCapDetected(w);
      DetectsFires(g, p, other, C.DangerousCaps, w.Ref());
    }
    if MountsEscapePath(w) {
      EscapeMountDetected(w);
      DetectsFires(g, p, other, C.HostPath, w.Ref());
    }
    if AutomountOn(g, w) { DetectsFires(g, p, other, C.Automount, w.Ref()); }
  }

  lemma {:induction false} NoPaths(g: Graph, ws: seq<Workload>, assumeBreach: bool)
    requires forall w :: w in ws ==> PathFor(g, w, assumeBreach) == None
    ensures FlatMap(PathsOf(g, assumeBreach), ws) == []
  {
    hide PathFor;
    if ws != [] { NoPaths(g, ws[..|ws| - 1], assumeBreach); }
  }
}
