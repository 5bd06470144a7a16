/**
 * The checks that attack-path hops cite, and the scan that runs a profile's checks.
 * The remaining checks enter as opaque finding lists.
 */
module Checks {
  import opened Common
  import opened Ordering
  import opened Api
  import opened Graph
  import A = Attack

  datatype Meta = Meta(id: string, severity: Severity, category: string)

  const PRIVILEGED := Meta("KG-001", Critical, "host-access")
  const HOST_PATH := Meta("KG-002", Critical, "host-access")
  const DANGEROUS_CAPS := Meta("KG-008", High, "workload-hardening")
  const ADMIN_BINDING := Meta("KG-011", Critical, "rbac")
  const SECRETS_ACCESS := Meta("KG-013", High, "rbac")
  const POD_CREATE := Meta("KG-014", High, "rbac")
  const AUTOMOUNT := Meta("KG-015", Medium, "rbac")
  const NETWORK_POLICY := Meta("KG-017", Medium, "network")
  const EXPOSURE := Meta("KG-018", Medium, "exposure")

  function FindingOf(m: Meta, ref: ResourceRef, detail: string): Finding {
    Finding(m.id, m.severity, m.category, ref, detail)
  }

  const SENSITIVE_HOST_PATHS := {
    "/", "/var/run", "/var/run/docker.sock", "/run/docker.sock", "/run/containerd/containerd.sock",
    "/var/run/crio/crio.sock", "/proc", "/var/lib/kubelet", "/etc/kubernetes", "/var/lib/docker"
  }

  const DANGEROUS_CAP_NAMES := {
    "ALL", "SYS_ADMIN", "NET_ADMIN", "SYS_PTRACE", "SYS_MODULE", "SYS_BOOT", "SYS_RAWIO",
    "DAC_READ_SEARCH", "BPF", "NET_RAW"
  }

  // ----- KG-001, KG-002, KG-008, KG-015: per workload -----

  function PrivilegedIn(w: Workload): Container -> seq<Finding> {
    (c: Container) => if c.privileged then [FindingOf(PRIVILEGED, w.Ref(), c.name)] else []
  }

  function PrivilegedFindings(w: Workload): seq<Finding> {
    FlatMap(PrivilegedIn(w), w.podSpec.containers)
  }

  method RunPrivileged(g: Graph) returns (out: seq<Finding>)
    ensures out == FlatMap(PrivilegedFindings, g.workloads)
  {
    hide FlatMap, PrivilegedFindings;
    out := [];
    FlatMapEnds(PrivilegedFindings, g.workloads);
    for i := 0 to |g.workloads|
      invariant out == FlatMap(PrivilegedFindings, g.workloads[..i])
    {
      FlatMapStep(PrivilegedFindings, g.workloads, i);
      var inner := PrivilegedContainers(g.workloads[i]);
      out := out + inner;
    }
  }

  /** The inner loop over one workload's containers. */
  method PrivilegedContainers(w: Workload) returns (out: seq<Finding>)
    ensures out == PrivilegedFindings(w)
  {
    hide FlatMap, FindingOf;
    out := [];
    var cs := w.podSpec.containers;
    FlatMapEnds(PrivilegedIn(w), cs);
    for j := 0 to |cs|
      invariant out == FlatMap(PrivilegedIn(w), cs[..j])
    {
      FlatMapStep(PrivilegedIn(w), cs, j);
      if cs[j].privileged {
        out := out + [FindingOf(PRIVILEGED, w.Ref(), cs[j].name)];
      }
    }
  }

  function HostPathIn(w: Workload): Volume -> seq<Finding> {
    (v: Volume) =>
      if v.hostPath == "" then []
      else
        var f := FindingOf(HOST_PATH, w.Ref(), v.hostPath);
        [if v.hostPath in SENSITIVE_HOST_PATHS then f else f.(severity := High)]
  }

  function HostPathFindings(w: Workload): seq<Finding> {
    FlatMap(HostPathIn(w), w.podSpec.volumes)
  }

  method RunHostPath(g: Graph) returns (out: seq<Finding>)
    ensures out == FlatMap(HostPathFindings, g.workloads)
  {
    hide FlatMap, HostPathFindings;
    out := [];
    FlatMapEnds(HostPathFindings, g.workloads);
    for i := 0 to |g.workloads|
      invariant out == FlatMap(HostPathFindings, g.workloads[..i])
    {
      FlatMapStep(HostPathFindings, g.workloads, i);
      var inner := HostPathVolumes(g.workloads[i]);
      out := out + inner;
    }
  }

  /** The inner loop over one workload's volumes. */
  method HostPathVolumes(w: Workload) returns (out: seq<Finding>)
    ensures out == HostPathFindings(w)
  {
    hide FlatMap, FindingOf, SENSITIVE_HOST_PATHS;
    out := [];
    var vs := w.podSpec.volumes;
    FlatMapEnds(HostPathIn(w), vs);
    for j := 0 to |vs|
      invariant out == FlatMap(HostPathIn(w), vs[..j])
    {
      FlatMapStep(HostPathIn(w), vs, j);
      var v := vs[j];
      if v.hostPath == "" {
        continue;
      }
      var f := FindingOf(HOST_PATH, w.Ref(), v.hostPath);
      if v.hostPath !in SENSITIVE_HOST_PATHS {
        f := f.(severity := High);
      }
      out := out + [f];
    }
  }

  predicate IsDangerousCap(n: string) {
    A.ToUpper(n) in DANGEROUS_CAP_NAMES
  }

  function DangerousCap(w: Workload): string -> seq<Finding> {
    (n: string) => if IsDangerousCap(n) then [FindingOf(DANGEROUS_CAPS, w.Ref(), n)] else []
  }

  function DangerousCapsIn(w: Workload): Container -> seq<Finding> {
    (c: Container) => FlatMap(DangerousCap(w), c.capsAdd)
  }

  function DangerousCapFindings(w: Workload): seq<Finding> {
    FlatMap(DangerousCapsIn(w), w.podSpec.containers)
  }

  method RunDangerousCaps(g: Graph) returns (out: seq<Finding>)
    ensures out == FlatMap(DangerousCapFindings, g.workloads)
  {
    hide FlatMap, DangerousCapFindings;
    out := [];
    FlatMapEnds(DangerousCapFindings, g.workloads);
    for i := 0 to |g.workloads|
      invariant out == FlatMap(DangerousCapFindings, g.workloads[..i])
    {
      FlatMapStep(DangerousCapFindings, g.workloads, i);
      var w := g.workloads[i];
      var cs := w.podSpec.containers;
      var inner: seq<Finding> := [];
      FlatMapEnds(DangerousCapsIn(w), cs);
      for j := 0 to |cs|
        invariant inner == FlatMap(DangerousCapsIn(w), cs[..j])
      {
        FlatMapStep(DangerousCapsIn(w), cs, j);
        var caps := CapsOfContainer(w, cs[j]);
        inner := inner + caps;
      }
      assert inner == DangerousCapFindings(w) by { CapFindingsAre(w); }
      out := out + inner;
    }
  }

  lemma CapFindingsAre(w: Workload)
    ensures DangerousCapFindings(w) == FlatMap(DangerousCapsIn(w), w.podSpec.containers)
  {
  }

  /** The innermost loop over one container's added capabilities. */
  method CapsOfContainer(w: Workload, c: Container) returns (out: seq<Finding>)
    ensures out == DangerousCapsIn(w)(c)
  {
    hide FlatMap, FindingOf, IsDangerousCap;
    out := [];
    FlatMapEnds(DangerousCap(w), c.capsAdd);
    for k := 0 to |c.capsAdd|
      invariant out == FlatMap(DangerousCap(w), c.capsAdd[..k])
    {
      FlatMapStep(DangerousCap(w), c.capsAdd, k);
      if IsDangerousCap(c.capsAdd[k]) {
        out := out + [FindingOf(DANGEROUS_CAPS, w.Ref(), c.capsAdd[k])];
      }
    }
  }

  /** The check's own reading of automount: pod, then ServiceAccount, then true. */
  predicate AutomountEffective(g: Graph, w: Workload) {
    match w.podSpec.automount
    case Some(b) => b
    case None =>
      match ServiceAccountByName(g.serviceAccounts, w.namespace, w.serviceAccountName)
      case Some(sa) => (match sa.automount case Some(b) => b case None => true)
      case None => true
  }

  function AutomountIn(g: Graph): Workload -> seq<Finding> {
    (w: Workload) => if AutomountEffective(g, w) then [FindingOf(AUTOMOUNT, w.Ref(), "")] else []
  }

  method RunAutomount(g: Graph) returns (out: seq<Finding>)
    ensures out == FlatMap(AutomountIn(g), g.workloads)
  {
    hide FlatMap, FindingOf, AutomountEffective;
    out := [];
    FlatMapEnds(AutomountIn(g), g.workloads);
    for i := 0 to |g.workloads|
      invariant out == FlatMap(AutomountIn(g), g.workloads[..i])
    {
      FlatMapStep(AutomountIn(g), g.workloads, i);
      if AutomountEffective(g, g.workloads[i]) {
        out := out + [FindingOf(AUTOMOUNT, g.workloads[i].Ref(), "")];
      }
    }
  }

  // ----- KG-011, KG-013, KG-014: role based -----

  predicate HasPrivSubject(subjects: seq<Subject>) {
    exists s :: s in subjects && (s.kind == "ServiceAccount" || s.kind == "Group")
  }

  /** The check's own role lookup. */
  function FindRoleRules(g: Graph, kind: string, name: string): Option<seq<PolicyRule>> {
    if kind == "ClusterRole" then FirstNamed(g.clusterRoles, name)
    else if kind == "Role" then FirstNamed(g.roles, name)
    else None
  }

  predicate AdminReason(g: Graph, ref: RoleRef) {
    || IsClusterAdminRef(ref)
    || (var rules := FindRoleRules(g, ref.kind, ref.name);
        rules.Some? && exists r :: r in rules.value && FullWildcard(r))
  }

  function AdminBindingIn(g: Graph): Binding -> seq<Finding> {
    (b: Binding) =>
      if HasPrivSubject(b.subjects) && AdminReason(g, b.roleRef)
      then [FindingOf(ADMIN_BINDING, b.Ref(), b.roleRef.name)] else []
  }

  function AdminBindingFindings(g: Graph): seq<Finding> {
    FlatMap(AdminBindingIn(g), g.clusterRoleBindings) + FlatMap(AdminBindingIn(g), g.roleBindings)
  }

  method RunAdminBinding(g: Graph) returns (out: seq<Finding>)
    ensures out == AdminBindingFindings(g)
  {
    hide FlatMap, FindingOf, HasPrivSubject, AdminReason;
    out := [];
    FlatMapEnds(AdminBindingIn(g), g.clusterRoleBindings);
    FlatMapEnds(AdminBindingIn(g), g.roleBindings);
    for i := 0 to |g.clusterRoleBindings|
      invariant out == FlatMap(AdminBindingIn(g), g.clusterRoleBindings[..i])
    {
      FlatMapStep(AdminBindingIn(g), g.clusterRoleBindings, i);
      var b := g.clusterRoleBindings[i];
      if HasPrivSubject(b.subjects) && AdminReason(g, b.roleRef) {
        out := out + [FindingOf(ADMIN_BINDING, b.Ref(), b.roleRef.name)];
      }
    }
    ghost var before := out;
    for i := 0 to |g.roleBindings|
      invariant out == before + FlatMap(AdminBindingIn(g), g.roleBindings[..i])
    {
      FlatMapStep(AdminBindingIn(g), g.roleBindings, i);
      var b := g.roleBindings[i];
      if HasPrivSubject(b.subjects) && AdminReason(g, b.roleRef) {
        out := out + [FindingOf(ADMIN_BINDING, b.Ref(), b.roleRef.name)];
      }
    }
  }

  function AllRoles(g: Graph): seq<Role> {
    g.roles + g.clusterRoles
  }

  /** The rules the check looks at for a role: those of the first role of its kind and name. */
  function RulesOf(g: Graph, r: Role): seq<PolicyRule> {
    match FindRoleRules(g, r.kind, r.name) case Some(rules) => rules case None => []
  }

  function RoleIn(g: Graph, m: Meta, grants: PolicyRule -> bool): Role -> seq<Finding> {
    (r: Role) => if exists rule :: rule in RulesOf(g, r) && grants(rule) then [FindingOf(m, r.Ref(), "")] else []
  }

  /** KG-013 and KG-014 share this loop: one finding per role with an offending rule. */
  method RunRoles(g: Graph, m: Meta, grants: PolicyRule -> bool) returns (out: seq<Finding>)
    ensures out == FlatMap(RoleIn(g, m, grants), AllRoles(g))
  {
    hide FlatMap, FindingOf, RulesOf;
    out := [];
    var roles := AllRoles(g);
    FlatMapEnds(RoleIn(g, m, grants), roles);
    for i := 0 to |roles|
      invariant out == FlatMap(RoleIn(g, m, grants), roles[..i])
    {
      FlatMapStep(RoleIn(g, m, grants), roles, i);
      var rules := RulesOf(g, roles[i]);
      var found := false;
      for j := 0 to |rules|
        invariant !found && forall k :: 0 <= k < j ==> !grants(rules[k])
      {
        if grants(rules[j]) {
          found := true;
          break;
        }
      }
      if found {
        out := out + [FindingOf(m, roles[i].Ref(), "")];
      }
    }
  }

  // ----- KG-017: namespaces with workloads but no default-deny -----

  function NamespaceRef(namespace: string): ResourceRef {
    ResourceRef("Namespace", "", namespace)
  }

  function NamespacesOf(ws: seq<Workload>): set<string> {
    set w | w in ws && w.namespace != "" :: w.namespace
  }

  /** The namespaces of `ws`, each once, in first-seen order. */
  function NamespaceList(ws: seq<Workload>): (r: seq<string>)
    ensures NoDuplicates(r)
    ensures forall n :: n in r <==> n in NamespacesOf(ws)
  {
    if ws == [] then [] else
      var front, ns := NamespaceList(ws[..|ws| - 1]), ws[|ws| - 1].namespace;
      assert ws == ws[..|ws| - 1] + [ws[|ws| - 1]];
      if ns == "" || ns in front then front else front + [ns]
  }

  function NoDenyIn(g: Graph): string -> seq<Finding> {
    (ns: string) => if HasDefaultDeny(g, ns) then [] else [FindingOf(NETWORK_POLICY, NamespaceRef(ns), "")]
  }

  function NetworkPolicyFindings(g: Graph): seq<Finding> {
    FlatMap(NoDenyIn(g), StableSort(StringLess, NamespaceList(g.workloads)))
  }

  lemma StringLessIsOrder()
    ensures StrictWeakOrder(StringLess)
  {
    forall x: string, y: string, z: string
      ensures !StringLess(x, x)
      ensures StringLess(x, y) && StringLess(y, z) ==> StringLess(x, z)
      ensures StringLess(x, z) ==> StringLess(x, y) || StringLess(y, z)
    {
      StringLessTriple(x, y, z);
    }
  }

  /** Sorting a set's elements gives the same list whatever order they came in. */
  lemma SortedKeysUnique(a: seq<string>, b: seq<string>)
    requires NoDuplicates(a) && NoDuplicates(b) && Within(a, b) && Within(b, a)
    ensures StableSort(StringLess, a) == StableSort(StringLess, b)
  {
    StringLessIsOrder();
    forall x: string, y: string ensures x != y ==> StringLess(x, y) || StringLess(y, x) { StringLessTotal(x, y); }
    SortedWithoutTies(StringLess, a);
    SortedWithoutTies(StringLess, b);
    StrictlySortedUnique(StringLess, StableSort(StringLess, a), StableSort(StringLess, b));
  }

  method RunNetworkPolicy(g: Graph) returns (out: seq<Finding>)
    ensures out == NetworkPolicyFindings(g)
  {
    hide FlatMap, FindingOf, HasDefaultDeny, StableSort;
    var withWorkloads: set<string> := {};
    for i := 0 to |g.workloads|
      invariant withWorkloads == NamespacesOf(g.workloads[..i])
    {
      assert g.workloads[..i + 1] == g.workloads[..i] + [g.workloads[i]];
      if g.workloads[i].namespace != "" {
        withWorkloads := withWorkloads + {g.workloads[i].namespace};
      }
    }
    assert g.workloads[..|g.workloads|] == g.workloads;
    var namespaces := SetToSeq(withWorkloads);
    SortedKeysUnique(namespaces, NamespaceList(g.workloads));
    namespaces := StableSort(StringLess, namespaces);
    out := [];
    FlatMapEnds(NoDenyIn(g), namespaces);
    for i := 0 to |namespaces|
      invariant out == FlatMap(NoDenyIn(g), namespaces[..i])
    {
      FlatMapStep(NoDenyIn(g), namespaces, i);
      if !HasDefaultDeny(g, namespaces[i]) {
        out := out + [FindingOf(NETWORK_POLICY, NamespaceRef(namespaces[i]), "")];
      }
    }
  }

  /** Go's iteration over a map's keys: every key once, in an order nobody controls. */
  method SetToSeq(s: set<string>) returns (r: seq<string>)
    ensures NoDuplicates(r)
    ensures forall x :: x in r <==> x in s
  {
    r := [];
    var todo := s;
    while todo != {}
      invariant NoDuplicates(r) && todo <= s
      invariant forall x :: x in r <==> x in s && x !in todo
      decreases |todo|
    {
      var x :| x in todo;
      todo := todo - {x};
      r := r + [x];
    }
  }

  // ----- KG-018: externally exposed services -----

  predicate WorkloadDangerous(g: Graph, w: Workload) {
    || (exists c :: c in w.podSpec.containers && c.privileged)
    || (exists v :: v in w.podSpec.volumes && v.hostPath != "")
    || IsClusterAdmin(g, w.namespace, w.serviceAccountName)
  }

  predicate FrontsDangerousWorkload(g: Graph, svc: Service) {
    exists w :: w in g.workloads && Selects(svc, w) && WorkloadDangerous(g, w)
  }

  function ExposureOf(g: Graph, svc: Service): Finding {
    var f := FindingOf(EXPOSURE, svc.Ref(), svc.exposure);
    if svc.exposure == "LoadBalancer" && FrontsDangerousWorkload(g, svc) then f.(severity := High) else f
  }

  function ExposureIn(g: Graph): Service -> seq<Finding> {
    (svc: Service) => if A.External(svc) then [ExposureOf(g, svc)] else []
  }

  method RunExposure(g: Graph) returns (out: seq<Finding>)
    ensures out == FlatMap(ExposureIn(g), g.services)
  {
    hide FlatMap, FindingOf, FrontsDangerousWorkload;
    out := [];
    FlatMapEnds(ExposureIn(g), g.services);
    for i := 0 to |g.services|
      invariant out == FlatMap(ExposureIn(g), g.services[..i])
    {
      FlatMapStep(ExposureIn(g), g.services, i);
      var svc := g.services[i];
      if svc.exposure != "LoadBalancer" && svc.exposure != "NodePort" {
        continue;
      }
      var f := FindingOf(EXPOSURE, svc.Ref(), svc.exposure);
      if svc.exposure == "LoadBalancer" && FrontsDangerousWorkload(g, svc) {
        f := f.(severity := High);
      }
      out := out + [f];
    }
  }

  // ----- the scan -----

  /** A registered check; `Opaque` ones contribute findings the model does not look into. */
  datatype Check = Privileged | HostPath | DangerousCaps | AdminBinding | SecretsAccess | PodCreation
                 | Automount | NetworkPolicies | Exposure | Opaque(id: string)
  {
    function Id(): string {
      match this
      case Privileged => PRIVILEGED.id
      case HostPath => HOST_PATH.id
      case DangerousCaps => DANGEROUS_CAPS.id
      case AdminBinding => ADMIN_BINDING.id
      case SecretsAccess => SECRETS_ACCESS.id
      case PodCreation => POD_CREATE.id
      case Automount => AUTOMOUNT.id
      case NetworkPolicies => NETWORK_POLICY.id
      case Exposure => EXPOSURE.id
      case Opaque(id) => id
    }
  }

  /** The built-in checks in id order. */
  const REGISTRY: seq<Check> := [
    Privileged, HostPath, Opaque("KG-003"), Opaque("KG-004"), Opaque("KG-005"), Opaque("KG-006"), Opaque("KG-007"),
    DangerousCaps, Opaque("KG-009"), Opaque("KG-010"), AdminBinding, Opaque("KG-012"), SecretsAccess, PodCreation,
    Automount, Opaque("KG-016"), NetworkPolicies, Exposure, Opaque("KG-019"), Opaque("KG-020"), Opaque("KG-021"),
    Opaque("KG-022")
  ]

  function Findings(c: Check, g: Graph, other: string -> seq<Finding>): seq<Finding> {
    match c
    case Privileged => FlatMap(PrivilegedFindings, g.workloads)
    case HostPath => FlatMap(HostPathFindings, g.workloads)
    case DangerousCaps => FlatMap(DangerousCapFindings, g.workloads)
    case AdminBinding => AdminBindingFindings(g)
    case SecretsAccess => FlatMap(RoleIn(g, SECRETS_ACCESS, GrantsSecrets), AllRoles(g))
    case PodCreation => FlatMap(RoleIn(g, POD_CREATE, GrantsPodCreate), AllRoles(g))
    case Automount => FlatMap(AutomountIn(g), g.workloads)
    case NetworkPolicies => NetworkPolicyFindings(g)
    case Exposure => FlatMap(ExposureIn(g), g.services)
    case Opaque(id) => other(id)
  }

  method Run(c: Check, g: Graph, other: string -> seq<Finding>) returns (out: seq<Finding>)
    ensures out == Findings(c, g, other)
  {
    match c
    case Privileged => out := RunPrivileged(g);
    case HostPath => out := RunHostPath(g);
    case DangerousCaps => out := RunDangerousCaps(g);
    case AdminBinding => out := RunAdminBinding(g);
    case SecretsAccess => out := RunRoles(g, SECRETS_ACCESS, GrantsSecrets);
    case PodCreation => out := RunRoles(g, POD_CREATE, GrantsPodCreate);
    case Automount => out := RunAutomount(g);
    case NetworkPolicies => out := RunNetworkPolicy(g);
    case Exposure => out := RunExposure(g);
    case Opaque(id) => out := other(id);
  }

  /** Include (empty means all), exclude, and per-check severity overrides. */
  datatype Profile = Profile(included: seq<string>, excluded: seq<string>, overrides: map<string, Severity>)
  {
    predicate Includes(id: string) {
      id !in excluded && (included == [] || id in included)
    }
  }

  const ZEAL_DEFAULT := Profile([], [], map[])

  function Overridden(p: Profile, id: string): Finding -> seq<Finding> {
    (f: Finding) => [if id in p.overrides then f.(severity := p.overrides[id]) else f]
  }

  function Selected(g: Graph, p: Profile, other: string -> seq<Finding>): Check -> seq<Finding> {
    (c: Check) => if p.Includes(c.Id()) then FlatMap(Overridden(p, c.Id()), Findings(c, g, other)) else []
  }

  function ResourceKey(r: ResourceRef): string {
    r.namespace + "/" + r.kind + "/" + r.name
  }

  /** Severity descending, then category, id and resource. */
  predicate FindingLess(a: Finding, b: Finding) {
    if a.severity.Rank() != b.severity.Rank() then a.severity.Rank() > b.severity.Rank()
    else if a.category != b.category then StringLess(a.category, b.category)
    else if a.id != b.id then StringLess(a.id, b.id)
    else StringLess(ResourceKey(a.resource), ResourceKey(b.resource))
  }

  lemma FindingLessIsOrder()
    ensures StrictWeakOrder(FindingLess)
  {
    forall x: Finding, y: Finding, z: Finding
      ensures !FindingLess(x, x)
      ensures FindingLess(x, y) && FindingLess(y, z) ==> FindingLess(x, z)
      ensures FindingLess(x, z) ==> FindingLess(x, y) || FindingLess(y, z)
    {
      FindingLessTriple(x, y, z);
    }
  }

  lemma FindingLessTriple(x: Finding, y: Finding, z: Finding)
    ensures !FindingLess(x, x)
    ensures FindingLess(x, y) && FindingLess(y, z) ==> FindingLess(x, z)
    ensures FindingLess(x, z) ==> FindingLess(x, y) || FindingLess(y, z)
  {
    hide StringLess, ResourceKey;
    StringLessTriple(x.category, y.category, z.category);
    StringLessTriple(x.id, y.id, z.id);
    StringLessTriple(ResourceKey(x.resource), ResourceKey(y.resource), ResourceKey(z.resource));
  }

  function ScanOf(g: Graph, p: Profile, other: string -> seq<Finding>): seq<Finding> {
    StableSort(FindingLess, FlatMap(Selected(g, p, other), REGISTRY))
  }

  method Scan(g: Graph, p: Profile, other: string -> seq<Finding>) returns (findings: seq<Finding>)
    ensures findings == ScanOf(g, p, other)
    ensures Sorted(FindingLess, findings)
    ensures forall i, j :: 0 <= i < j < |findings| ==> Precedes(findings[i], findings[j])
  {
    hide FlatMap, Findings, StableSort, FindingLess, REGISTRY;
    findings := [];
    FlatMapEnds(Selected(g, p, other), REGISTRY);
    for i := 0 to |REGISTRY|
      invariant findings == FlatMap(Selected(g, p, other), REGISTRY[..i])
    {
      FlatMapStep(Selected(g, p, other), REGISTRY, i);
      if !p.Includes(REGISTRY[i].Id()) {
        continue;
      }
      var fs := Run(REGISTRY[i], g, other);
      fs := Override(p, REGISTRY[i].Id(), fs);
      findings := findings + fs;
    }
    FindingLessIsOrder();
    StableSortCorrect(FindingLess, findings);
    findings := StableSort(FindingLess, findings);
    WorstFirst(findings);
  }

  /** Not after `b`: at least as severe, then by category, check id and resource. */
  ghost predicate Precedes(a: Finding, b: Finding) {
    && a.severity.Rank() >= b.severity.Rank()
    && (a.severity.Rank() == b.severity.Rank() ==> a.category == b.category || StringLess(a.category, b.category))
    && (a.severity.Rank() == b.severity.Rank() && a.category == b.category ==> a.id == b.id || StringLess(a.id, b.id))
    && (a.severity.Rank() == b.severity.Rank() && a.category == b.category && a.id == b.id ==>
          !StringLess(ResourceKey(b.resource), ResourceKey(a.resource)))
  }

  lemma WorstFirst(findings: seq<Finding>)
    requires Sorted(FindingLess, findings)
    ensures forall i, j :: 0 <= i < j < |findings| ==> Precedes(findings[i], findings[j])
  {
    hide StringLess, ResourceKey;
    forall i, j | 0 <= i < j < |findings| ensures Precedes(findings[i], findings[j]) {
      var a, b := findings[i], findings[j];
      assert !FindingLess(b, a);
      StringLessTotal(a.category, b.category);
      StringLessTotal(a.id, b.id);
    }
  }

  /** A reported finding is one of an included check's, with the profile's severity where it names one. */
  lemma ScanOrigin(g: Graph, p: Profile, other: string -> seq<Finding>, f: Finding) returns (c: Check, f0: Finding)
    requires f in ScanOf(g, p, other)
    ensures c in REGISTRY && p.Includes(c.Id()) && f0 in Findings(c, g, other)
    ensures f.id == f0.id && f.resource == f0.resource && f.category == f0.category && f.detail == f0.detail
    ensures f.severity == if c.Id() in p.overrides then p.overrides[c.Id()] else f0.severity
  {
    hide FlatMap, Findings, StableSort, FindingLess, REGISTRY;
    var all := FlatMap(Selected(g, p, other), REGISTRY);
    SameElements(StableSort(FindingLess, all), all);
    FlatMapMembers(Selected(g, p, other), REGISTRY, f);
    c :| c in REGISTRY && f in Selected(g, p, other)(c);
    FlatMapMembers(Overridden(p, c.Id()), Findings(c, g, other), f);
    f0 :| f0 in Findings(c, g, other) && f in Overridden(p, c.Id())(f0);
  }

  /** The inner loop: one check's findings with the profile's severity applied. */
  method Override(p: Profile, id: string, fs: seq<Finding>) returns (out: seq<Finding>)
    ensures out == FlatMap(Overridden(p, id), fs)
  {
    hide FlatMap;
    out := [];
    FlatMapEnds(Overridden(p, id), fs);
    for j := 0 to |fs|
      invariant out == FlatMap(Overridden(p, id), fs[..j])
    {
      FlatMapStep(Overridden(p, id), fs, j);
      var f := fs[j];
      if id in p.overrides {
        f := f.(severity := p.overrides[id]);
      }
      out := out + [f];
    }
  }

  /** A scan reports exactly the findings of the included checks, up to severity overrides. */
  lemma ScanReports(g: Graph, p: Profile, other: string -> seq<Finding>, id: string, ref: ResourceRef)
    ensures (exists f :: f in ScanOf(g, p, other) && f.id == id && f.resource == ref) <==>
      exists c, f :: c in REGISTRY && p.Includes(c.Id()) && f in Findings(c, g, other) && f.id == id
        && f.resource == ref
  {
    hide FlatMap, Findings, StableSort, FindingLess, REGISTRY;
    var all := FlatMap(Selected(g, p, other), REGISTRY);
    SameElements(StableSort(FindingLess, all), all);
    if f :| f in ScanOf(g, p, other) && f.id == id && f.resource == ref {
      FlatMapMembers(Selected(g, p, other), REGISTRY, f);
      var c :| c in REGISTRY && f in Selected(g, p, other)(c);
      FlatMapMembers(Overridden(p, c.Id()), Findings(c, g, other), f);
      var f0 :| f0 in Findings(c, g, other) && f in Overridden(p, c.Id())(f0);
      assert f0.id == id && f0.resource == ref;
    }
    if c, f :| c in REGISTRY && p.Includes(c.Id()) && f in Findings(c, g, other) && f.id == id && f.resource == ref {
      var f' := Overridden(p, c.Id())(f)[0];
      assert f' in Overridden(p, c.Id())(f);
      FlatMapMembers(Overridden(p, c.Id()), Findings(c, g, other), f');
      assert f' in Selected(g, p, other)(c);
      FlatMapMembers(Selected(g, p, other), REGISTRY, f');
    }
  }

  // ----- default severities -----

  /** The severity a check gives on its own, before any override. */
  lemma DefaultSeverity(c: Check, g: Graph, other: string -> seq<Finding>, f: Finding)
    requires !c.Opaque? && f in Findings(c, g, other)
    ensures match c
      case Privileged => f.severity == Critical && f.category == "host-access"
      case HostPath =>
        f.severity == (if f.detail in SENSITIVE_HOST_PATHS then Critical else High) && f.category == "host-access"
      case DangerousCaps => f.severity == High && f.category == "workload-hardening"
      case AdminBinding => f.severity == Critical && f.category == "rbac"
      case SecretsAccess | PodCreation => f.severity == High && f.category == "rbac"
      case Automount => f.severity == Medium && f.category == "rbac"
      case NetworkPolicies => f.severity == Medium && f.category == "network"
      case Exposure =>
        && f.category == "exposure"
        && exists svc :: (svc in g.services && svc.Ref() == f.resource && f.severity
             == if svc.exposure == "LoadBalancer" && FrontsDangerousWorkload(g, svc) then High else Medium)
      case Opaque(_) => true
  {
    hide FlatMap, IsDangerousCap, AdminReason, HasPrivSubject, RulesOf, AutomountEffective, HasDefaultDeny,
      FrontsDangerousWorkload, SENSITIVE_HOST_PATHS, StableSort, A.External;
    match c
    case Privileged =>
      FlatMapMembers(PrivilegedFindings, g.workloads, f);
      var w :| w in g.workloads && f in PrivilegedFindings(w);
      FlatMapMembers(PrivilegedIn(w), w.podSpec.containers, f);
    case HostPath =>
      FlatMapMembers(HostPathFindings, g.workloads, f);
      var w :| w in g.workloads && f in HostPathFindings(w);
      FlatMapMembers(HostPathIn(w), w.podSpec.volumes, f);
    case DangerousCaps =>
      FlatMapMembers(DangerousCapFindings, g.workloads, f);
      var w :| w in g.workloads && f in DangerousCapFindings(w);
      CapFindingsAre(w);
      FlatMapMembers(DangerousCapsIn(w), w.podSpec.containers, f);
      var k :| k in w.podSpec.containers && f in DangerousCapsIn(w)(k);
      FlatMapMembers(DangerousCap(w), k.capsAdd, f);
    case AdminBinding =>
      FlatMapMembers(AdminBindingIn(g), g.clusterRoleBindings, f);
      FlatMapMembers(AdminBindingIn(g), g.roleBindings, f);
    case SecretsAccess => FlatMapMembers(RoleIn(g, SECRETS_ACCESS, GrantsSecrets), AllRoles(g), f);
    case PodCreation => FlatMapMembers(RoleIn(g, POD_CREATE, GrantsPodCreate), AllRoles(g), f);
    case Automount => FlatMapMembers(AutomountIn(g), g.workloads, f);
    case NetworkPolicies =>
      FlatMapMembers(NoDenyIn(g), StableSort(StringLess, NamespaceList(g.workloads)), f);
    case Exposure =>
      FlatMapMembers(ExposureIn(g), g.services, f);
      var svc :| svc in g.services && f in ExposureIn(g)(svc);
      assert svc.Ref() == f.resource;
    case Opaque(_) =>
  }

  /** A service fronts a dangerous workload when it selects one that is privileged, mounts a host path or is admin. */
  lemma FrontsDangerousExact(g: Graph, svc: Service)
    ensures FrontsDangerousWorkload(g, svc) <==>
      exists w :: w in g.workloads && Selects(svc, w)
        && (A.HasPrivileged(w) || (exists v :: v in w.podSpec.volumes && v.hostPath != "") || A.Admin(g, w))
  {
    hide Selects, IsClusterAdmin;
    forall w ensures WorkloadDangerous(g, w) <==>
      (A.HasPrivileged(w) || (exists v :: v in w.podSpec.volumes && v.hostPath != "") || A.Admin(g, w)) {}
  }

  /** Users are not privileged subjects; ServiceAccounts and groups are. */
  lemma PrivSubjectExact(subjects: seq<Subject>)
    ensures HasPrivSubject(subjects) <==> exists s :: s in subjects && s.kind in {"ServiceAccount", "Group"}
  {
  }
}
