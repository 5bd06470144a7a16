/**
 * What a scan means: each check of the attack chain fires on exactly the resources that have
 * the misconfiguration it looks for, and the scan reports exactly that.
 */
module Detection {
  import opened Common
  import opened Api
  import opened Graph
  import opened Ladder
  import opened Attack
  import C = Checks
  import O = Ordering

  /** Some finding is about `ref`. */
  ghost predicate Hits(fs: seq<Finding>, ref: ResourceRef) {
    exists f :: f in fs && f.resource == ref
  }

  ghost predicate Fired(scan: seq<Finding>, id: string, ref: ResourceRef) {
    exists f :: f in scan && f.id == id && f.resource == ref
  }

  /** The checks left out of the model label findings with their own id, as every check does. */
  ghost predicate OwnIds(other: string -> seq<Finding>) {
    forall id, f :: f in other(id) ==> f.id == id
  }

  // ----- the misconfigurations -----

  ghost predicate MountsHostPath(w: Workload) {
    exists v :: v in w.podSpec.volumes && v.hostPath != ""
  }

  ghost predicate AddsDangerousCap(w: Workload) {
    exists k :: k in w.podSpec.containers && exists n :: n in k.capsAdd && C.IsDangerousCap(n)
  }

  ghost predicate BindsAdmin(g: Graph, b: Binding) {
    C.HasPrivSubject(b.subjects) && C.AdminReason(g, b.roleRef)
  }

  ghost predicate RoleGrants(g: Graph, r: Role, grants: PolicyRule -> bool) {
    exists rule :: rule in C.RulesOf(g, r) && grants(rule)
  }

  /** What each check is about, said on the graph. */
  ghost predicate Detects(g: Graph, other: string -> seq<Finding>, c: C.Check, ref: ResourceRef) {
    match c
    case Privileged => exists w :: w in g.workloads && w.Ref() == ref && HasPrivileged(w)
    case HostPath => exists w :: w in g.workloads && w.Ref() == ref && MountsHostPath(w)
    case DangerousCaps => exists w :: w in g.workloads && w.Ref() == ref && AddsDangerousCap(w)
    case AdminBinding =>
      exists b :: b in g.clusterRoleBindings + g.roleBindings && b.Ref() == ref && BindsAdmin(g, b)
    case SecretsAccess => exists r :: r in C.AllRoles(g) && r.Ref() == ref && RoleGrants(g, r, GrantsSecrets)
    case PodCreation => exists r :: r in C.AllRoles(g) && r.Ref() == ref && RoleGrants(g, r, GrantsPodCreate)
    case Automount => exists w :: w in g.workloads && w.Ref() == ref && C.AutomountEffective(g, w)
    case NetworkPolicies =>
      exists w :: w in g.workloads && w.namespace != "" && C.NamespaceRef(w.namespace) == ref
                  && !HasDefaultDeny(g, w.namespace)
    case Exposure => exists svc :: svc in g.services && svc.Ref() == ref && External(svc)
    case Opaque(id) => Hits(other(id), ref)
  }

  // ----- one check -----

  lemma HitsMap<A(!new)>(f: A -> seq<Finding>, s: seq<A>, ref: ResourceRef)
    ensures Hits(FlatMap(f, s), ref) <==> exists x :: x in s && Hits(f(x), ref)
  {
  }

  lemma HitsOne(f: Finding, ref: ResourceRef)
    ensures Hits([f], ref) <==> f.resource == ref
    ensures !Hits([], ref)
  {
    assert f in [f];
  }

  lemma PrivilegedExact(g: Graph, ref: ResourceRef)
    ensures Hits(FlatMap(C.PrivilegedFindings, g.workloads), ref)
      <==> exists w :: w in g.workloads && w.Ref() == ref && HasPrivileged(w)
  {
    hide FlatMap, Hits;
    HitsMap(C.PrivilegedFindings, g.workloads, ref);
    forall w ensures Hits(C.PrivilegedFindings(w), ref) <==> w.Ref() == ref && HasPrivileged(w) {
      HitsMap(C.PrivilegedIn(w), w.podSpec.containers, ref);
      forall k ensures Hits(C.PrivilegedIn(w)(k), ref) <==> k.privileged && w.Ref() == ref {
        HitsOne(C.FindingOf(C.PRIVILEGED, w.Ref(), k.name), ref);
      }
    }
  }

  lemma HostPathExact(g: Graph, ref: ResourceRef)
    ensures Hits(FlatMap(C.HostPathFindings, g.workloads), ref)
      <==> exists w :: w in g.workloads && w.Ref() == ref && MountsHostPath(w)
  {
    hide FlatMap, Hits, C.SENSITIVE_HOST_PATHS;
    HitsMap(C.HostPathFindings, g.workloads, ref);
    forall w ensures Hits(C.HostPathFindings(w), ref) <==> w.Ref() == ref && MountsHostPath(w) {
      HitsMap(C.HostPathIn(w), w.podSpec.volumes, ref);
      forall v ensures Hits(C.HostPathIn(w)(v), ref) <==> v.hostPath != "" && w.Ref() == ref {
        HitsOne(C.FindingOf(C.HOST_PATH, w.Ref(), v.hostPath), ref);
        HitsOne(C.FindingOf(C.HOST_PATH, w.Ref(), v.hostPath).(severity := High), ref);
      }
    }
  }

  lemma DangerousCapExact(g: Graph, ref: ResourceRef)
    ensures Hits(FlatMap(C.DangerousCapFindings, g.workloads), ref)
      <==> exists w :: w in g.workloads && w.Ref() == ref && AddsDangerousCap(w)
  {
    hide FlatMap, Hits, C.IsDangerousCap;
    HitsMap(C.DangerousCapFindings, g.workloads, ref);
    forall w ensures Hits(C.DangerousCapFindings(w), ref) <==> w.Ref() == ref && AddsDangerousCap(w) {
      HitsMap(C.DangerousCapsIn(w), w.podSpec.containers, ref);
      forall k ensures Hits(C.DangerousCapsIn(w)(k), ref)
        <==> w.Ref() == ref && exists n :: n in k.capsAdd && C.IsDangerousCap(n)
      {
        HitsMap(C.DangerousCap(w), k.capsAdd, ref);
        forall n ensures Hits(C.DangerousCap(w)(n), ref) <==> C.IsDangerousCap(n) && w.Ref() == ref {
          HitsOne(C.FindingOf(C.DANGEROUS_CAPS, w.Ref(), n), ref);
        }
      }
    }
  }

  lemma AdminBindingExact(g: Graph, ref: ResourceRef)
    ensures Hits(C.AdminBindingFindings(g), ref)
      <==> exists b :: b in g.clusterRoleBindings + g.roleBindings && b.Ref() == ref && BindsAdmin(g, b)
  {
    FlatMapConcat(C.AdminBindingIn(g), g.clusterRoleBindings, g.roleBindings);
    hide FlatMap, Hits, C.HasPrivSubject, C.AdminReason;
    HitsMap(C.AdminBindingIn(g), g.clusterRoleBindings + g.roleBindings, ref);
    forall b ensures Hits(C.AdminBindingIn(g)(b), ref) <==> b.Ref() == ref && BindsAdmin(g, b) {
      HitsOne(C.FindingOf(C.ADMIN_BINDING, b.Ref(), b.roleRef.name), ref);
    }
  }

  lemma RolesExact(g: Graph, m: C.Meta, grants: PolicyRule -> bool, ref: ResourceRef)
    ensures Hits(FlatMap(C.RoleIn(g, m, grants), C.AllRoles(g)), ref)
      <==> exists r :: r in C.AllRoles(g) && r.Ref() == ref && RoleGrants(g, r, grants)
  {
    hide FlatMap, Hits, C.RulesOf;
    HitsMap(C.RoleIn(g, m, grants), C.AllRoles(g), ref);
    forall r ensures Hits(C.RoleIn(g, m, grants)(r), ref) <==> r.Ref() == ref && RoleGrants(g, r, grants) {
      HitsOne(C.FindingOf(m, r.Ref(), ""), ref);
    }
  }

  lemma AutomountExact(g: Graph, ref: ResourceRef)
    ensures Hits(FlatMap(C.AutomountIn(g), g.workloads), ref)
      <==> exists w :: w in g.workloads && w.Ref() == ref && C.AutomountEffective(g, w)
  {
    hide FlatMap, Hits, C.AutomountEffective;
    HitsMap(C.AutomountIn(g), g.workloads, ref);
    forall w ensures Hits(C.AutomountIn(g)(w), ref) <==> w.Ref() == ref && C.AutomountEffective(g, w) {
      HitsOne(C.FindingOf(C.AUTOMOUNT, w.Ref(), ""), ref);
    }
  }

  lemma NetworkPolicyExact(g: Graph, ref: ResourceRef)
    ensures Hits(C.NetworkPolicyFindings(g), ref)
      <==> exists w :: w in g.workloads && w.namespace != "" && C.NamespaceRef(w.namespace) == ref
                       && !HasDefaultDeny(g, w.namespace)
  {
    hide FlatMap, Hits, HasDefaultDeny, O.StableSort, O.StringLess;
    var list := C.NamespaceList(g.workloads);
    var sorted := O.StableSort(O.StringLess, list);
    SameElements(sorted, list);
    HitsMap(C.NoDenyIn(g), sorted, ref);
    forall n ensures Hits(C.NoDenyIn(g)(n), ref) <==> C.NamespaceRef(n) == ref && !HasDefaultDeny(g, n) {
      HitsOne(C.FindingOf(C.NETWORK_POLICY, C.NamespaceRef(n), ""), ref);
    }
    forall n ensures n in sorted <==> n in C.NamespacesOf(g.workloads) {}
  }

  lemma ExposureExact(g: Graph, ref: ResourceRef)
    ensures Hits(FlatMap(C.ExposureIn(g), g.services), ref)
      <==> exists svc :: svc in g.services && svc.Ref() == ref && External(svc)
  {
    hide FlatMap, Hits, C.FrontsDangerousWorkload;
    HitsMap(C.ExposureIn(g), g.services, ref);
    forall svc ensures Hits(C.ExposureIn(g)(svc), ref) <==> svc.Ref() == ref && External(svc) {
      HitsOne(C.ExposureOf(g, svc), ref);
    }
  }

  /** A check's findings name exactly the misconfigured resources. */
  lemma FindingsExact(g: Graph, other: string -> seq<Finding>, c: C.Check, ref: ResourceRef)
    ensures Hits(C.Findings(c, g, other), ref) <==> Detects(g, other, c, ref)
  {
    hide FlatMap, Hits, HasPrivileged, MountsHostPath, AddsDangerousCap, BindsAdmin, RoleGrants, C.AutomountEffective,
      HasDefaultDeny, External, C.AdminBindingFindings, C.NetworkPolicyFindings;
    match c
    case Privileged => PrivilegedExact(g, ref);
    case HostPath => HostPathExact(g, ref);
    case DangerousCaps => DangerousCapExact(g, ref);
    case AdminBinding => AdminBindingExact(g, ref);
    case SecretsAccess => RolesExact(g, C.SECRETS_ACCESS, GrantsSecrets, ref);
    case PodCreation => RolesExact(g, C.POD_CREATE, GrantsPodCreate, ref);
    case Automount => AutomountExact(g, ref);
    case NetworkPolicies => NetworkPolicyExact(g, ref);
    case Exposure => ExposureExact(g, ref);
    case Opaque(_) =>
  }

  // ----- labels -----

  ghost predicate Labelled(fs: seq<Finding>, id: string) {
    forall f :: f in fs ==> f.id == id
  }

  lemma {:induction false} LabelledMap<A>(f: A -> seq<Finding>, s: seq<A>, id: string)
    requires forall x :: x in s ==> Labelled(f(x), id)
    ensures Labelled(FlatMap(f, s), id)
  {
    if s != [] {
      assert s[|s| - 1] in s;
      LabelledMap(f, s[..|s| - 1], id);
    }
  }

  /** Every finding carries the id of its check. */
  lemma CheckLabels(g: Graph, other: string -> seq<Finding>, c: C.Check)
    requires c.Opaque? ==> OwnIds(other)
    ensures Labelled(C.Findings(c, g, other), c.Id())
  {
    hide FlatMap, C.IsDangerousCap, C.AdminReason, C.HasPrivSubject, C.RulesOf, C.AutomountEffective, HasDefaultDeny,
      C.FrontsDangerousWorkload, C.SENSITIVE_HOST_PATHS, O.StableSort;
    var id := c.Id();
    match c
    case Privileged =>
      forall w ensures Labelled(C.PrivilegedFindings(w), id) {
        LabelledMap(C.PrivilegedIn(w), w.podSpec.containers, id);
      }
      LabelledMap(C.PrivilegedFindings, g.workloads, id);
    case HostPath =>
      forall w ensures Labelled(C.HostPathFindings(w), id) { LabelledMap(C.HostPathIn(w), w.podSpec.volumes, id); }
      LabelledMap(C.HostPathFindings, g.workloads, id);
    case DangerousCaps =>
      forall w ensures Labelled(C.DangerousCapFindings(w), id) {
        forall k ensures Labelled(C.DangerousCapsIn(w)(k), id) { LabelledMap(C.DangerousCap(w), k.capsAdd, id); }
        LabelledMap(C.DangerousCapsIn(w), w.podSpec.containers, id);
      }
      LabelledMap(C.DangerousCapFindings, g.workloads, id);
    case AdminBinding =>
      LabelledMap(C.AdminBindingIn(g), g.clusterRoleBindings, id);
      LabelledMap(C.AdminBindingIn(g), g.roleBindings, id);
    case SecretsAccess => LabelledMap(C.RoleIn(g, C.SECRETS_ACCESS, GrantsSecrets), C.AllRoles(g), id);
    case PodCreation => LabelledMap(C.RoleIn(g, C.POD_CREATE, GrantsPodCreate), C.AllRoles(g), id);
    case Automount => LabelledMap(C.AutomountIn(g), g.workloads, id);
    case NetworkPolicies => LabelledMap(C.NoDenyIn(g), O.StableSort(O.StringLess, C.NamespaceList(g.workloads)), id);
    case Exposure => LabelledMap(C.ExposureIn(g), g.services, id);
    case Opaque(_) =>
  }

  /** The number in a check's id. */
  function Number(id: string): int
    requires |id| == 6
  {
    (id[4] as int - '0' as int) * 10 + id[5] as int - '0' as int
  }

  /** The registry is in id order, so ids are distinct. */
  lemma IdsDistinct(c: C.Check, d: C.Check)
    requires c in C.REGISTRY && d in C.REGISTRY && c.Id() == d.Id()
    ensures c == d
  {
    hide C.REGISTRY, Number;
    var r := C.REGISTRY;
    var i :| 0 <= i < |r| && r[i] == c;
    var j :| 0 <= j < |r| && r[j] == d;
    RegistryNumbers(i);
    RegistryNumbers(j);
  }

  lemma RegistryNumbers(i: nat)
    requires i < |C.REGISTRY|
    ensures |C.REGISTRY[i].Id()| == 6 && Number(C.REGISTRY[i].Id()) == i + 1
  {
  }

  // ----- the scan -----

  ghost predicate Runs(p: C.Profile, c: C.Check) {
    c in C.REGISTRY && p.Includes(c.Id())
  }

  ghost predicate RunsAll(p: C.Profile) {
    forall c :: c in C.REGISTRY ==> p.Includes(c.Id())
  }

  /** A misconfiguration an included check looks for is reported. */
  lemma DetectsFires(g: Graph, p: C.Profile, other: string -> seq<Finding>, c: C.Check, ref: ResourceRef)
    requires Runs(p, c) && Detects(g, other, c, ref) && (c.Opaque? ==> OwnIds(other))
    ensures Fired(C.ScanOf(g, p, other), c.Id(), ref)
  {
    hide C.Findings, C.REGISTRY, C.ScanOf, Detects;
    FindingsExact(g, other, c, ref);
    CheckLabels(g, other, c);
    C.ScanReports(g, p, other, c.Id(), ref);
  }

  /** A scan reports a check on a resource exactly when the profile runs it and the resource has its defect. */
  lemma ScanIsExact(g: Graph, p: C.Profile, other: string -> seq<Finding>, c: C.Check, ref: ResourceRef)
    requires OwnIds(other) && c in C.REGISTRY
    ensures Fired(C.ScanOf(g, p, other), c.Id(), ref) <==> Runs(p, c) && Detects(g, other, c, ref)
  {
    hide C.Findings, C.REGISTRY, C.ScanOf, Detects;
    C.ScanReports(g, p, other, c.Id(), ref);
    if Runs(p, c) && Detects(g, other, c, ref) {
      DetectsFires(g, p, other, c, ref);
    }
    if d, f :| d in C.REGISTRY && p.Includes(d.Id())
               && f in C.Findings(d, g, other) && f.id == c.Id() && f.resource == ref
    {
      CheckLabels(g, other, d);
      IdsDistinct(c, d);
      FindingsExact(g, other, c, ref);
    }
  }

  /** The checks attack paths cite, as registered. */
  lemma Registered()
    ensures C.Privileged in C.REGISTRY && C.HostPath in C.REGISTRY && C.DangerousCaps in C.REGISTRY
    ensures C.AdminBinding in C.REGISTRY && C.SecretsAccess in C.REGISTRY && C.PodCreation in C.REGISTRY
    ensures C.Automount in C.REGISTRY && C.NetworkPolicies in C.REGISTRY && C.Exposure in C.REGISTRY
  {
    var r := C.REGISTRY;
    assert r[0] == C.Privileged && r[1] == C.HostPath && r[7] == C.DangerousCaps;
    assert r[10] == C.AdminBinding && r[12] == C.SecretsAccess && r[13] == C.PodCreation;
    assert r[14] == C.Automount && r[16] == C.NetworkPolicies && r[17] == C.Exposure;
  }

  lemma CheckRuns(p: C.Profile, c: C.Check)
    requires RunsAll(p) && !c.Opaque?
    ensures Runs(p, c)
  {
  }

  /** A check runs unless it is excluded, or others are listed and it is not; excluded ones are never reported. */
  lemma ProfileSelects(g: Graph, p: C.Profile, other: string -> seq<Finding>, c: C.Check, ref: ResourceRef)
    requires OwnIds(other) && c in C.REGISTRY
    ensures c.Id() in p.excluded ==> !Fired(C.ScanOf(g, p, other), c.Id(), ref)
    ensures |p.included| > 0 && c.Id() !in p.included ==> !Fired(C.ScanOf(g, p, other), c.Id(), ref)
    ensures c.Id() !in p.excluded && (p.included == [] || c.Id() in p.included) ==> Runs(p, c)
  {
    hide C.REGISTRY, C.ScanOf, Detects, Fired;
    ScanIsExact(g, p, other, c, ref);
  }
}
