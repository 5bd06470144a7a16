/**
 * The resource graph: typed inventory plus the queries the engines share
 * (role grants, service selection, default-deny, RBAC rule predicates).
 */
module Graph {
  import opened Common
  import opened Api

  datatype Container = Container(name: string, privileged: bool, capsAdd: seq<string>)

  /** `hostPath` is empty when the volume is not a hostPath volume. */
  datatype Volume = Volume(name: string, hostPath: string)

  datatype PodSpec = PodSpec(automount: Option<bool>, volumes: seq<Volume>, containers: seq<Container>)

  datatype Workload = Workload(kind: string, namespace: string, name: string, serviceAccountName: string,
                               podLabels: map<string, string>, podSpec: PodSpec)
  {
    function Ref(): ResourceRef {
      ResourceRef(kind, namespace, name)
    }
  }

  datatype ServiceAccount = ServiceAccount(namespace: string, name: string, automount: Option<bool>)

  datatype PolicyRule = PolicyRule(apiGroups: seq<string>, resources: seq<string>, verbs: seq<string>)

  /** A Role or a ClusterRole. */
  datatype Role = Role(kind: string, namespace: string, name: string, rules: seq<PolicyRule>)
  {
    function Ref(): ResourceRef {
      ResourceRef(kind, namespace, name)
    }
  }

  datatype RoleRef = RoleRef(kind: string, name: string)

  datatype Subject = Subject(kind: string, name: string, namespace: string)

  /** A RoleBinding or a ClusterRoleBinding. */
  datatype Binding = Binding(kind: string, namespace: string, name: string, roleRef: RoleRef, subjects: seq<Subject>)
  {
    function Ref(): ResourceRef {
      ResourceRef(kind, namespace, name)
    }
  }

  datatype Service = Service(kind: string, namespace: string, name: string, exposure: string,
                             selector: map<string, string>)
  {
    function Ref(): ResourceRef {
      ResourceRef(kind, namespace, name)
    }
  }

  datatype NetworkPolicy = NetworkPolicy(namespace: string, name: string, podSelector: map<string, string>,
                                         policyTypes: seq<string>, ingressRules: nat, egressRules: nat)
  {
    predicate IsDefaultDeny() {
      && podSelector == map[]
      && exists t :: t in policyTypes
           && ((t == "Ingress" && ingressRules == 0) || (t == "Egress" && egressRules == 0))
    }
  }

  datatype Graph = Graph(workloads: seq<Workload>, serviceAccounts: seq<ServiceAccount>, roles: seq<Role>,
                         clusterRoles: seq<Role>, roleBindings: seq<Binding>, clusterRoleBindings: seq<Binding>,
                         services: seq<Service>, networkPolicies: seq<NetworkPolicy>)

  // ----- role resolution -----

  /** `rules` is empty when the referenced role is not in the loaded set. */
  datatype GrantedRole = GrantedRole(roleRef: RoleRef, bindingName: string, resolved: bool, rules: seq<PolicyRule>)

  /** The rules of the first role carrying `name`. */
  function FirstNamed(roles: seq<Role>, name: string): (r: Option<seq<PolicyRule>>)
    ensures r.Some? <==> exists role :: role in roles && role.name == name
    ensures r.Some? ==> exists role :: role in roles && role.name == name && role.rules == r.value
  {
    if roles == [] then None
    else if roles[0].name == name then Some(roles[0].rules)
    else FirstNamed(roles[1..], name)
  }

  /** Appended roles never displace an earlier one of the same name. */
  lemma {:induction false} FirstNamedAppend(roles: seq<Role>, more: seq<Role>, name: string)
    ensures FirstNamed(roles, name).Some? ==> FirstNamed(roles + more, name) == FirstNamed(roles, name)
  {
    if roles != [] {
      assert (roles + more)[1..] == roles[1..] + more;
      FirstNamedAppend(roles[1..], more, name);
    }
  }

  function RoleRules(g: Graph, kind: string, name: string): Option<seq<PolicyRule>> {
    if kind == "ClusterRole" then FirstNamed(g.clusterRoles, name)
    else if kind == "Role" then FirstNamed(g.roles, name)
    else None
  }

  function ResolveRef(g: Graph, ref: RoleRef, bindingName: string): GrantedRole {
    match RoleRules(g, ref.kind, ref.name)
    case Some(rules) => GrantedRole(ref, bindingName, true, rules)
    case None => GrantedRole(ref, bindingName, false, [])
  }

  /** Does a subject list name the ServiceAccount? An empty subject namespace means the binding's. */
  predicate SubjectsInclude(subjects: seq<Subject>, namespace: string, name: string, bindingNamespace: string) {
    exists s :: s in subjects && s.kind == "ServiceAccount" && s.name == name
      && (if s.namespace == "" then bindingNamespace else s.namespace) == namespace
  }

  /** A cluster role binding has no namespace of its own to default to. */
  predicate Grants(b: Binding, cluster: bool, namespace: string, name: string) {
    SubjectsInclude(b.subjects, namespace, name, if cluster then "" else b.namespace)
  }

  function GrantOf(g: Graph, cluster: bool, namespace: string, name: string): Binding -> seq<GrantedRole> {
    (b: Binding) => if Grants(b, cluster, namespace, name) then [ResolveRef(g, b.roleRef, b.name)] else []
  }

  function Granted(g: Graph, namespace: string, name: string): seq<GrantedRole> {
    FlatMap(GrantOf(g, true, namespace, name), g.clusterRoleBindings)
    + FlatMap(GrantOf(g, false, namespace, name), g.roleBindings)
  }

  method GrantedRolesForSA(g: Graph, namespace: string, name: string) returns (out: seq<GrantedRole>)
    ensures out == Granted(g, namespace, name)
  {
    hide FlatMap, ResolveRef, SubjectsInclude;
    out := [];
    FlatMapEnds(GrantOf(g, true, namespace, name), g.clusterRoleBindings);
    FlatMapEnds(GrantOf(g, false, namespace, name), g.roleBindings);
    for i := 0 to |g.clusterRoleBindings|
      invariant out == FlatMap(GrantOf(g, true, namespace, name), g.clusterRoleBindings[..i])
    {
      FlatMapStep(GrantOf(g, true, namespace, name), g.clusterRoleBindings, i);
      var b := g.clusterRoleBindings[i];
      if SubjectsInclude(b.subjects, namespace, name, "") {
        out := out + [ResolveRef(g, b.roleRef, b.name)];
      }
    }
    ghost var fromCluster := out;
    for i := 0 to |g.roleBindings|
      invariant out == fromCluster + FlatMap(GrantOf(g, false, namespace, name), g.roleBindings[..i])
    {
      FlatMapStep(GrantOf(g, false, namespace, name), g.roleBindings, i);
      var b := g.roleBindings[i];
      if SubjectsInclude(b.subjects, namespace, name, b.namespace) {
        out := out + [ResolveRef(g, b.roleRef, b.name)];
      }
    }
  }

  /** The binding, if any, through which `gr` is granted. */
  ghost predicate GrantedBy(g: Graph, b: Binding, namespace: string, name: string, gr: GrantedRole) {
    && ((b in g.clusterRoleBindings && Grants(b, true, namespace, name))
        || (b in g.roleBindings && Grants(b, false, namespace, name)))
    && gr == ResolveRef(g, b.roleRef, b.name)
  }

  lemma GrantedMembers(g: Graph, namespace: string, name: string, gr: GrantedRole)
    ensures gr in Granted(g, namespace, name) <==> exists b :: GrantedBy(g, b, namespace, name, gr)
  {
    FlatMapMembers(GrantOf(g, true, namespace, name), g.clusterRoleBindings, gr);
    FlatMapMembers(GrantOf(g, false, namespace, name), g.roleBindings, gr);
    if gr in FlatMap(GrantOf(g, true, namespace, name), g.clusterRoleBindings) {
      var b :| b in g.clusterRoleBindings && gr in GrantOf(g, true, namespace, name)(b);
      assert GrantedBy(g, b, namespace, name, gr);
    } else if gr in FlatMap(GrantOf(g, false, namespace, name), g.roleBindings) {
      var b :| b in g.roleBindings && gr in GrantOf(g, false, namespace, name)(b);
      assert GrantedBy(g, b, namespace, name, gr);
    }
    if b :| GrantedBy(g, b, namespace, name, gr) {
      if b in g.clusterRoleBindings && Grants(b, true, namespace, name) {
        assert gr in GrantOf(g, true, namespace, name)(b);
      } else {
        assert gr in GrantOf(g, false, namespace, name)(b);
      }
    }
  }

  // ----- rule predicates -----

  predicate Wildcard(ss: seq<string>) {
    "*" in ss
  }

  predicate FullWildcard(r: PolicyRule) {
    Wildcard(r.apiGroups) && Wildcard(r.resources) && Wildcard(r.verbs)
  }

  predicate GrantsSecrets(r: PolicyRule) {
    && ("secrets" in r.resources || Wildcard(r.resources))
    && ("get" in r.verbs || "list" in r.verbs || "watch" in r.verbs || Wildcard(r.verbs))
  }

  predicate GrantsPodCreate(r: PolicyRule) {
    || (("pods" in r.resources || Wildcard(r.resources)) && ("create" in r.verbs || Wildcard(r.verbs)))
    || "pods/exec" in r.resources || "pods/attach" in r.resources
  }

  // ----- what a ServiceAccount can do -----

  const EVERYTHING := PolicyRule(["*"], ["*"], ["*"])

  predicate IsClusterAdminRef(ref: RoleRef) {
    ref.kind == "ClusterRole" && ref.name == "cluster-admin"
  }

  /** The built-in cluster-admin rule is implicit even when its object was not loaded. */
  function RulesOfGrant(gr: GrantedRole): seq<PolicyRule> {
    (if IsClusterAdminRef(gr.roleRef) then [EVERYTHING] else []) + gr.rules
  }

  function Rules(g: Graph, namespace: string, name: string): seq<PolicyRule> {
    FlatMap(RulesOfGrant, Granted(g, namespace, name))
  }

  method SaRules(g: Graph, namespace: string, name: string) returns (rules: seq<PolicyRule>)
    ensures rules == Rules(g, namespace, name)
  {
    hide FlatMap, Granted;
    rules := [];
    var granted := GrantedRolesForSA(g, namespace, name);
    FlatMapEnds(RulesOfGrant, granted);
    for i := 0 to |granted|
      invariant rules == FlatMap(RulesOfGrant, granted[..i])
    {
      FlatMapStep(RulesOfGrant, granted, i);
      if IsClusterAdminRef(granted[i].roleRef) {
        rules := rules + [EVERYTHING];
      }
      rules := rules + granted[i].rules;
    }
  }

  predicate AdminGrant(gr: GrantedRole) {
    IsClusterAdminRef(gr.roleRef) || exists r :: r in gr.rules && FullWildcard(r)
  }

  predicate IsClusterAdmin(g: Graph, namespace: string, name: string) {
    exists gr :: gr in Granted(g, namespace, name) && AdminGrant(gr)
  }

  predicate CanReadSecrets(g: Graph, namespace: string, name: string) {
    exists r :: r in Rules(g, namespace, name) && GrantsSecrets(r)
  }

  predicate CanCreatePods(g: Graph, namespace: string, name: string) {
    exists r :: r in Rules(g, namespace, name) && GrantsPodCreate(r)
  }

  method SAIsClusterAdmin(g: Graph, namespace: string, name: string) returns (admin: bool)
    ensures admin == IsClusterAdmin(g, namespace, name)
  {
    hide Granted, FullWildcard;
    var granted := GrantedRolesForSA(g, namespace, name);
    for i := 0 to |granted|
      invariant forall k :: 0 <= k < i ==> !AdminGrant(granted[k])
    {
      if IsClusterAdminRef(granted[i].roleRef) {
        assert AdminGrant(granted[i]);
        return true;
      }
      var rules := granted[i].rules;
      for j := 0 to |rules|
        invariant forall k :: 0 <= k < j ==> !FullWildcard(rules[k])
      {
        if FullWildcard(rules[j]) {
          assert AdminGrant(granted[i]);
          return true;
        }
      }
    }
    return false;
  }

  method SACanReadSecrets(g: Graph, namespace: string, name: string) returns (can: bool)
    ensures can == CanReadSecrets(g, namespace, name)
  {
    hide Rules, GrantsSecrets;
    var rules := SaRules(g, namespace, name);
    for i := 0 to |rules|
      invariant forall k :: 0 <= k < i ==> !GrantsSecrets(rules[k])
    {
      if GrantsSecrets(rules[i]) {
        return true;
      }
    }
    return false;
  }

  method SACanCreatePods(g: Graph, namespace: string, name: string) returns (can: bool)
    ensures can == CanCreatePods(g, namespace, name)
  {
    hide Rules, GrantsPodCreate;
    var rules := SaRules(g, namespace, name);
    for i := 0 to |rules|
      invariant forall k :: 0 <= k < i ==> !GrantsPodCreate(rules[k])
    {
      if GrantsPodCreate(rules[i]) {
        return true;
      }
    }
    return false;
  }

  lemma RulesMembers(g: Graph, namespace: string, name: string, r: PolicyRule)
    ensures r in Rules(g, namespace, name)
      <==> exists gr :: gr in Granted(g, namespace, name) && r in RulesOfGrant(gr)
  {
    FlatMapMembers(RulesOfGrant, Granted(g, namespace, name), r);
  }

  /** Cluster-admin implies both lesser capabilities. */
  lemma AdminImpliesAll(g: Graph, namespace: string, name: string)
    requires IsClusterAdmin(g, namespace, name)
    ensures CanReadSecrets(g, namespace, name) && CanCreatePods(g, namespace, name)
  {
    var gr :| gr in Granted(g, namespace, name) && AdminGrant(gr);
    if IsClusterAdminRef(gr.roleRef) {
      assert EVERYTHING in RulesOfGrant(gr) && FullWildcard(EVERYTHING);
    }
    var r :| r in RulesOfGrant(gr) && FullWildcard(r);
    RulesMembers(g, namespace, name, r);
    assert FullWildcard(r);
    assert GrantsSecrets(r) && GrantsPodCreate(r);
  }

  // ----- services, service accounts, network policies -----

  function LabelOf(labels: map<string, string>, k: string): string {
    if k in labels then labels[k] else ""
  }

  /** A missing label reads as the empty string. */
  predicate SelectorMatches(selector: map<string, string>, labels: map<string, string>) {
    forall k :: k in selector ==> LabelOf(labels, k) == selector[k]
  }

  predicate Selects(svc: Service, w: Workload) {
    && svc.selector != map[]
    && w.namespace == svc.namespace
    && SelectorMatches(svc.selector, w.podLabels)
  }

  function SelectedBy(svc: Service): Workload -> bool {
    (w: Workload) => Selects(svc, w)
  }

  method WorkloadsForService(g: Graph, svc: Service) returns (out: seq<Workload>)
    ensures out == Filter(SelectedBy(svc), g.workloads)
  {
    out := [];
    if |svc.selector| == 0 {
      NothingSelected(svc, g.workloads);
      return;
    }
    for i := 0 to |g.workloads|
      invariant out == Filter(SelectedBy(svc), g.workloads[..i])
    {
      assert g.workloads[..i + 1][..i] == g.workloads[..i];
      var w := g.workloads[i];
      if w.namespace == svc.namespace && SelectorMatches(svc.selector, w.podLabels) {
        out := out + [w];
      }
    }
    assert g.workloads[..|g.workloads|] == g.workloads;
  }

  lemma {:induction false} NothingSelected(svc: Service, ws: seq<Workload>)
    requires svc.selector == map[]
    ensures Filter(SelectedBy(svc), ws) == []
  {
    if ws != [] { NothingSelected(svc, ws[..|ws| - 1]); }
  }

  function ServiceAccountByName(sas: seq<ServiceAccount>, namespace: string, name: string): Option<ServiceAccount> {
    if sas == [] then None
    else if sas[0].namespace == namespace && sas[0].name == name then Some(sas[0])
    else ServiceAccountByName(sas[1..], namespace, name)
  }

  predicate HasDefaultDeny(g: Graph, namespace: string) {
    exists np :: np in g.networkPolicies && np.namespace == namespace && np.IsDefaultDeny()
  }

  method NetworkPoliciesInNamespace(g: Graph, namespace: string) returns (out: seq<NetworkPolicy>)
    ensures forall np :: np in out <==> np in g.networkPolicies && np.namespace == namespace
  {
    out := [];
    for i := 0 to |g.networkPolicies|
      invariant forall np :: np in out <==> np in g.networkPolicies[..i] && np.namespace == namespace
    {
      var np := g.networkPolicies[i];
      assert g.networkPolicies[..i + 1] == g.networkPolicies[..i] + [np];
      if np.namespace == namespace {
        out := out + [np];
      }
    }
    assert g.networkPolicies[..|g.networkPolicies|] == g.networkPolicies;
  }

  method FindDefaultDeny(g: Graph, namespace: string) returns (found: bool)
    ensures found == HasDefaultDeny(g, namespace)
  {
    var nps := NetworkPoliciesInNamespace(g, namespace);
    for i := 0 to |nps|
      invariant forall k :: 0 <= k < i ==> !nps[k].IsDefaultDeny()
    {
      if nps[i].IsDefaultDeny() {
        assert nps[i] in nps;
        return true;
      }
    }
    return false;
  }

  // ----- who a binding grants to -----

  /** The ServiceAccount a subject names when the binding's own namespace is `own` (empty for cluster bindings). */
  ghost predicate Names(s: Subject, own: string, namespace: string, name: string) {
    && s.kind == "ServiceAccount" && s.name == name
    && ((s.namespace != "" && s.namespace == namespace) || (s.namespace == "" && own == namespace))
  }

  /** A binding grants to an account exactly when a subject names it. */
  lemma GrantsExact(b: Binding, cluster: bool, namespace: string, name: string)
    ensures Grants(b, cluster, namespace, name)
      <==> exists s :: s in b.subjects && Names(s, if cluster then "" else b.namespace, namespace, name)
  {
    if Grants(b, cluster, namespace, name) {
      var own := if cluster then "" else b.namespace;
      var s :| s in b.subjects && s.kind == "ServiceAccount" && s.name == name
        && (if s.namespace == "" then own else s.namespace) == namespace;
      assert Names(s, own, namespace, name);
    }
  }

  /** Subjects that all name another account or an explicit other namespace grant nothing to this one. */
  lemma OtherNamespaceNeverGrants(b: Binding, cluster: bool, namespace: string, name: string)
    requires forall s :: s in b.subjects ==>
      s.kind != "ServiceAccount" || s.name != name || (s.namespace != "" && s.namespace != namespace)
    ensures !Grants(b, cluster, namespace, name)
  {
    GrantsExact(b, cluster, namespace, name);
  }

  // ----- what a rule grants -----

  function Members(ss: seq<string>): set<string> {
    set s | s in ss
  }

  /** Reading secrets needs a resource and a verb that cover it; pods need create, or an exec or attach resource. */
  lemma RulesExact(r: PolicyRule)
    ensures GrantsSecrets(r) <==>
      !(Members(r.resources) !! {"secrets", "*"}) && !(Members(r.verbs) !! {"get", "list", "watch", "*"})
    ensures GrantsPodCreate(r) <==>
      || !(Members(r.resources) !! {"pods/exec", "pods/attach"})
      || (!(Members(r.resources) !! {"pods", "*"}) && !(Members(r.verbs) !! {"create", "*"}))
    ensures FullWildcard(r) <==> "*" in Members(r.apiGroups) * Members(r.resources) * Members(r.verbs)
  {
  }

  /** A rule set without any of the verbs that read grants no secrets, whatever its resources. */
  lemma NoVerbNoSecrets(g: Graph, namespace: string, name: string)
    requires forall r :: r in Rules(g, namespace, name) ==> Members(r.verbs) !! {"get", "list", "watch", "*"}
    ensures !CanReadSecrets(g, namespace, name)
  {
    forall r | r in Rules(g, namespace, name) ensures !GrantsSecrets(r) { RulesExact(r); }
  }

  /** A policy denies by default when it selects every pod and has no rule for a direction it governs. */
  lemma DefaultDenyExact(np: NetworkPolicy)
    ensures np.IsDefaultDeny() <==>
      && |np.podSelector| == 0
      && (("Ingress" in Members(np.policyTypes) && np.ingressRules == 0)
          || ("Egress" in Members(np.policyTypes) && np.egressRules == 0))
  {
  }

  /** A service selects a workload of its namespace that carries every selector label. */
  lemma SelectsExact(svc: Service, w: Workload)
    ensures Selects(svc, w) <==>
      && w.namespace == svc.namespace && |svc.selector| > 0
      && forall k :: k in svc.selector ==>
           (k in w.podLabels && w.podLabels[k] == svc.selector[k]) || (k !in w.podLabels && svc.selector[k] == "")
  {
  }
}
