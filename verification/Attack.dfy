/**
 * The attack-path engine over a resource graph: collects the facts about each workload,
 * builds its path, sorts and numbers the paths.
 */
module Attack {
  import opened Common
  import opened Ordering
  import opened Api
  import opened Graph
  import opened Ladder

  const ESCAPE_HOST_PATHS := {
    "/", "/var/run", "/var/run/docker.sock", "/run/docker.sock", "/run/containerd/containerd.sock",
    "/var/run/crio/crio.sock", "/proc", "/var/lib/kubelet", "/var/lib/docker"
  }

  const ESCAPE_CAPS := {"ALL", "SYS_ADMIN", "SYS_MODULE", "SYS_RAWIO", "SYS_PTRACE", "DAC_READ_SEARCH", "BPF"}

  /**
   * Upper case as far as the capability tables can tell: dotless i and long s are the only
   * letters outside ASCII whose upper case is an ASCII letter.
   */
  function UpperChar(c: char): char {
    if 'a' <= c <= 'z' then c - 'a' + 'A'
    else if c == '\U{131}' then 'I'
    else if c == '\U{17F}' then 'S'
    else c
  }

  function ToUpper(s: string): string {
    if s == "" then "" else [UpperChar(s[0])] + ToUpper(s[1..])
  }

  // ----- predicates on one workload -----

  predicate HasPrivileged(w: Workload) {
    exists c :: c in w.podSpec.containers && c.privileged
  }

  predicate AddsCapFrom(w: Workload, caps: set<string>) {
    exists c :: c in w.podSpec.containers && exists n :: n in c.capsAdd && ToUpper(n) in caps
  }

  predicate IsEscapePath(v: Volume) {
    v.hostPath != "" && v.hostPath in ESCAPE_HOST_PATHS
  }

  predicate MountsEscapePath(w: Workload) {
    exists v :: v in w.podSpec.volumes && IsEscapePath(v)
  }

  predicate Escapes(w: Workload) {
    HasPrivileged(w) || AddsCapFrom(w, ESCAPE_CAPS) || MountsEscapePath(w)
  }

  function EscapeEnabler(w: Workload): string {
    if HasPrivileged(w) then KG_PRIVILEGED
    else if AddsCapFrom(w, ESCAPE_CAPS) then KG_DANGEROUS_CAP
    else if MountsEscapePath(w) then KG_HOST_PATH
    else KG_PRIVILEGED
  }

  function NodeEnabler(w: Workload): string {
    if MountsEscapePath(w) then KG_HOST_PATH else KG_PRIVILEGED
  }

  predicate External(svc: Service) {
    svc.exposure == "LoadBalancer" || svc.exposure == "NodePort"
  }

  /** An external service fronts a workload with this identity. */
  predicate Fronts(g: Graph, svc: Service, ref: ResourceRef) {
    External(svc) && exists m :: m in g.workloads && Selects(svc, m) && m.Ref() == ref
  }

  /** The name of the first service that exposes `ref`. */
  function ExposingService(g: Graph, services: seq<Service>, ref: ResourceRef): (r: Option<string>)
    ensures r.Some? <==> exists svc :: svc in services && Fronts(g, svc, ref)
  {
    if services == [] then None
    else if Fronts(g, services[0], ref) then Some(services[0].name)
    else ExposingService(g, services[1..], ref)
  }

  predicate Exposed(g: Graph, w: Workload) {
    ExposingService(g, g.services, w.Ref()).Some?
  }

  /** Pod setting first, then the ServiceAccount's, then the cluster default. */
  predicate AutomountOn(g: Graph, w: Workload) {
    if w.podSpec.automount.Some? then w.podSpec.automount.value
    else
      var sa := ServiceAccountByName(g.serviceAccounts, w.namespace, w.serviceAccountName);
      if sa.Some? && sa.value.automount.Some? then sa.value.automount.value else true
  }

  predicate Admin(g: Graph, w: Workload) {
    IsClusterAdmin(g, w.namespace, w.serviceAccountName)
  }

  predicate Secrets(g: Graph, w: Workload) {
    CanReadSecrets(g, w.namespace, w.serviceAccountName)
  }

  predicate Pods(g: Graph, w: Workload) {
    CanCreatePods(g, w.namespace, w.serviceAccountName)
  }

  function FactsOf(g: Graph, w: Workload): Facts {
    Facts(ExposingService(g, g.services, w.Ref()), Escapes(w), EscapeEnabler(w), NodeEnabler(w),
          AutomountOn(g, w), Admin(g, w), Secrets(g, w), Pods(g, w), HasDefaultDeny(g, w.namespace))
  }

  /** The services are searched in order, and each one's workloads for this identity. */
  method FindExposingService(g: Graph, w: Workload) returns (name: Option<string>)
    ensures name == ExposingService(g, g.services, w.Ref())
  {
    hide Selects, Filter;
    for i := 0 to |g.services|
      invariant ExposingService(g, g.services, w.Ref()) == ExposingService(g, g.services[i..], w.Ref())
    {
      var svc := g.services[i];
      assert g.services[i..][1..] == g.services[i + 1..];
      if svc.exposure != "LoadBalancer" && svc.exposure != "NodePort" {
        continue;
      }
      var fronted := FrontsIdentity(g, svc, w.Ref());
      if fronted {
        return Some(svc.name);
      }
    }
    return None;
  }

  method FrontsIdentity(g: Graph, svc: Service, ref: ResourceRef) returns (found: bool)
    requires External(svc)
    ensures found == Fronts(g, svc, ref)
  {
    hide Selects, Filter;
    var ws := WorkloadsForService(g, svc);
    forall m ensures m in ws <==> m in g.workloads && Selects(svc, m) {
      FilterMembers(SelectedBy(svc), g.workloads, m);
    }
    for j := 0 to |ws|
      invariant forall k :: 0 <= k < j ==> ws[k].Ref() != ref
    {
      if ws[j].Ref() == ref {
        assert ws[j] in ws;
        return true;
      }
    }
    return false;
  }

  method CollectFacts(g: Graph, w: Workload) returns (f: Facts)
    ensures f == FactsOf(g, w)
  {
    hide ExposingService, Escapes, EscapeEnabler, NodeEnabler, AutomountOn, HasDefaultDeny, IsClusterAdmin,
      CanReadSecrets, CanCreatePods;
    var service := FindExposingService(g, w);
    var admin := SAIsClusterAdmin(g, w.namespace, w.serviceAccountName);
    var secrets := SACanReadSecrets(g, w.namespace, w.serviceAccountName);
    var pods := SACanCreatePods(g, w.namespace, w.serviceAccountName);
    var deny := FindDefaultDeny(g, w.namespace);
    f := Facts(service, Escapes(w), EscapeEnabler(w), NodeEnabler(w), AutomountOn(g, w), admin, secrets, pods, deny);
  }

  function PathFor(g: Graph, w: Workload, assumeBreach: bool): Option<AttackPath> {
    PathFrom(FactsOf(g, w), w.Ref(), assumeBreach)
  }

  /** The source's condition for a path, in terms of the graph. */
  lemma PathExists(g: Graph, w: Workload, assumeBreach: bool)
    ensures PathFor(g, w, assumeBreach).Some? <==>
      || Escapes(w)
      || ((Exposed(g, w) || assumeBreach) && AutomountOn(g, w) && (Admin(g, w) || Secrets(g, w) || Pods(g, w)))
    ensures PathFor(g, w, assumeBreach).Some? ==>
      PathFor(g, w, assumeBreach).value.severity
      == (if Escapes(w) || (AutomountOn(g, w) && Admin(g, w)) then Critical else High)
  {
    hide PathFrom, Escapes, ExposingService, AutomountOn, Admin, Secrets, Pods, HasDefaultDeny, EscapeEnabler,
      NodeEnabler;
    ClosedForm(FactsOf(g, w), w.Ref(), assumeBreach);
  }

  // ----- the whole graph -----

  function EntryKey(r: ResourceRef): string {
    r.namespace + "/" + r.kind + "/" + r.name
  }

  predicate PathLess(a: AttackPath, b: AttackPath) {
    if a.severity.Rank() != b.severity.Rank() then a.severity.Rank() > b.severity.Rank()
    else if |a.hops| != |b.hops| then |a.hops| < |b.hops|
    else StringLess(EntryKey(a.entry), EntryKey(b.entry))
  }

  lemma PathLessIsOrder()
    ensures StrictWeakOrder(PathLess)
  {
    forall x: AttackPath, y: AttackPath, z: AttackPath
      ensures !PathLess(x, x)
      ensures PathLess(x, y) && PathLess(y, z) ==> PathLess(x, z)
      ensures PathLess(x, z) ==> PathLess(x, y) || PathLess(y, z)
    {
      StringLessTriple(EntryKey(x.entry), EntryKey(y.entry), EntryKey(z.entry));
    }
  }

  function Digits(n: nat): string {
    if n < 10 then [('0' as int + n) as char] else Digits(n / 10) + [('0' as int + n % 10) as char]
  }

  /** Go's `AP-%03d`. */
  function PathId(n: nat): string {
    "AP-" + (if n < 10 then "00" else if n < 100 then "0" else "") + Digits(n)
  }

  function Numbered(paths: seq<AttackPath>): (r: seq<AttackPath>)
    ensures |r| == |paths|
    ensures forall i :: 0 <= i < |r| ==> r[i] == paths[i].(id := PathId(i + 1))
  {
    seq(|paths|, i requires 0 <= i < |paths| => paths[i].(id := PathId(i + 1)))
  }

  function PathsOf(g: Graph, assumeBreach: bool): Workload -> seq<AttackPath> {
    (w: Workload) => match PathFor(g, w, assumeBreach) case Some(p) => [p] case None => []
  }

  function Paths(g: Graph, assumeBreach: bool): seq<AttackPath> {
    Numbered(StableSort(PathLess, FlatMap(PathsOf(g, assumeBreach), g.workloads)))
  }

  method BuildPaths(g: Graph, assumeBreach: bool) returns (paths: seq<AttackPath>)
    ensures paths == Paths(g, assumeBreach)
    ensures forall i, j :: 0 <= i < j < |paths| ==>
      var a, b := paths[i], paths[j];
      && a.severity.Rank() >= b.severity.Rank()
      && (a.severity.Rank() == b.severity.Rank() ==> |a.hops| <= |b.hops|)
      && (a.severity.Rank() == b.severity.Rank() && |a.hops| == |b.hops| ==>
            !StringLess(EntryKey(b.entry), EntryKey(a.entry)))
  {
    hide PathFrom, FactsOf, StableSort, PathLess, Numbered;
    paths := [];
    for i := 0 to |g.workloads|
      invariant paths == FlatMap(PathsOf(g, assumeBreach), g.workloads[..i])
    {
      FlatMapStep(PathsOf(g, assumeBreach), g.workloads, i);
      var w := g.workloads[i];
      var f := CollectFacts(g, w);
      var p := BuildPath(f, w.Ref(), assumeBreach);
      if p.Some? {
        paths := paths + [p.value];
      }
    }
    assert g.workloads[..|g.workloads|] == g.workloads;
    PathLessIsOrder();
    StableSortCorrect(PathLess, paths);
    paths := StableSort(PathLess, paths);
    NumberedSorted(paths);
    paths := AssignIds(paths);
    WorstFirst(paths);
  }

  /** The most severe paths first, shorter ones before longer ones, then by entry. */
  lemma WorstFirst(paths: seq<AttackPath>)
    requires Sorted(PathLess, paths)
    ensures forall i, j :: 0 <= i < j < |paths| ==>
      var a, b := paths[i], paths[j];
      && a.severity.Rank() >= b.severity.Rank()
      && (a.severity.Rank() == b.severity.Rank() ==> |a.hops| <= |b.hops|)
      && (a.severity.Rank() == b.severity.Rank() && |a.hops| == |b.hops| ==>
            !StringLess(EntryKey(b.entry), EntryKey(a.entry)))
  {
    hide StringLess, EntryKey;
    forall i, j | 0 <= i < j < |paths| ensures !PathLess(paths[j], paths[i]) {}
  }

  method AssignIds(sorted: seq<AttackPath>) returns (paths: seq<AttackPath>)
    ensures paths == Numbered(sorted)
  {
    paths := sorted;
    for i := 0 to |paths|
      invariant |paths| == |sorted|
      invariant forall k :: 0 <= k < |paths| ==>
        paths[k] == if k < i then sorted[k].(id := PathId(k + 1)) else sorted[k]
    {
      paths := paths[i := paths[i].(id := PathId(i + 1))];
    }
  }

  lemma NumberedSorted(paths: seq<AttackPath>)
    requires Sorted(PathLess, paths)
    ensures Sorted(PathLess, Numbered(paths))
  {
  }

  /** Which paths are reported, before numbering. */
  lemma PathsMembers(g: Graph, assumeBreach: bool, p: AttackPath)
    ensures p in StableSort(PathLess, FlatMap(PathsOf(g, assumeBreach), g.workloads))
      <==> exists w :: w in g.workloads && PathFor(g, w, assumeBreach) == Some(p)
  {
    hide PathFor, PathLess, StableSort, FlatMap;
    var all := FlatMap(PathsOf(g, assumeBreach), g.workloads);
    SameElements(StableSort(PathLess, all), all);
    FlatMapMembers(PathsOf(g, assumeBreach), g.workloads, p);
    if p in all {
      var w :| w in g.workloads && p in PathsOf(g, assumeBreach)(w);
      assert PathFor(g, w, assumeBreach) == Some(p);
    }
    if w :| w in g.workloads && PathFor(g, w, assumeBreach) == Some(p) {
      assert p in PathsOf(g, assumeBreach)(w);
    }
  }

  // ----- the report does not depend on the order workloads were loaded in -----

  ghost predicate DistinctEntries(ws: seq<Workload>) {
    forall i, j :: 0 <= i < j < |ws| ==> EntryKey(ws[i].Ref()) != EntryKey(ws[j].Ref())
  }

  lemma {:induction false} ExposingServiceSame(g: Graph, g': Graph, services: seq<Service>, ref: ResourceRef)
    requires Within(g.workloads, g'.workloads) && Within(g'.workloads, g.workloads)
    ensures ExposingService(g, services, ref) == ExposingService(g', services, ref)
  {
    if services != [] {
      assert Fronts(g, services[0], ref) == Fronts(g', services[0], ref);
      ExposingServiceSame(g, g', services[1..], ref);
    }
  }

  lemma GrantedSame(g: Graph, g': Graph, namespace: string, name: string)
    requires g.roles == g'.roles && g.clusterRoles == g'.clusterRoles
    requires g.roleBindings == g'.roleBindings && g.clusterRoleBindings == g'.clusterRoleBindings
    ensures IsClusterAdmin(g, namespace, name) == IsClusterAdmin(g', namespace, name)
    ensures CanReadSecrets(g, namespace, name) == CanReadSecrets(g', namespace, name)
    ensures CanCreatePods(g, namespace, name) == CanCreatePods(g', namespace, name)
  {
    GrantsGrow(g, g', namespace, name);
    GrantsGrow(g', g, namespace, name);
  }

  /** Facts depend on workloads as a set, and not otherwise on order. */
  lemma FactsSame(g: Graph, g': Graph, w: Workload)
    requires Within(g.workloads, g'.workloads) && Within(g'.workloads, g.workloads)
    requires g.serviceAccounts == g'.serviceAccounts && g.services == g'.services
    requires g.roles == g'.roles && g.clusterRoles == g'.clusterRoles
    requires g.roleBindings == g'.roleBindings && g.clusterRoleBindings == g'.clusterRoleBindings
    ensures FactsOf(g', w) == FactsOf(g, w).(defaultDeny := HasDefaultDeny(g', w.namespace))
  {
    hide Escapes, EscapeEnabler, NodeEnabler;
    ExposingServiceSame(g, g', g.services, w.Ref());
    GrantedSame(g, g', w.namespace, w.serviceAccountName);
  }

  lemma PathForSame(g: Graph, ws: seq<Workload>, w: Workload, assumeBreach: bool)
    requires Within(g.workloads, ws) && Within(ws, g.workloads)
    ensures PathFor(g, w, assumeBreach) == PathFor(g.(workloads := ws), w, assumeBreach)
  {
    hide PathFrom;
    FactsSame(g, g.(workloads := ws), w);
  }

  lemma PathEntry(g: Graph, w: Workload, assumeBreach: bool)
    ensures PathFor(g, w, assumeBreach).Some? ==> PathFor(g, w, assumeBreach).value.entry == w.Ref()
  {
    hide FactsOf, HopsOf, SeverityOf;
  }

  /** Paths found for workloads with distinct entries are distinct and comparable. */
  lemma {:induction false} PathsWithoutTies(g: Graph, ws: seq<Workload>, assumeBreach: bool)
    requires DistinctEntries(ws)
    ensures var ps := FlatMap(PathsOf(g, assumeBreach), ws);
      && NoDuplicates(ps)
      && (forall p, q :: p in ps && q in ps && p != q ==> PathLess(p, q) || PathLess(q, p))
      && (forall p :: p in ps ==> exists w :: w in ws && w.Ref() == p.entry)
  {
    hide PathFor;
    if ws != [] {
      var front, last := ws[..|ws| - 1], ws[|ws| - 1];
      PathsWithoutTies(g, front, assumeBreach);
      var ps, more := FlatMap(PathsOf(g, assumeBreach), front), PathsOf(g, assumeBreach)(last);
      forall p | p in ps
        ensures EntryKey(p.entry) != EntryKey(last.Ref()) && exists w :: w in ws && w.Ref() == p.entry
      {
        var w :| w in front && w.Ref() == p.entry;
        var i :| 0 <= i < |front| && front[i] == w;
        assert ws[i] == w;
      }
      PathEntry(g, last, assumeBreach);
      assert last in ws;
      forall p, q | p in ps && q in more ensures PathLess(p, q) || PathLess(q, p) {
        StringLessTotal(EntryKey(p.entry), EntryKey(q.entry));
      }
    }
  }

  lemma DistinctEntriesPermute(ws: seq<Workload>, ws': seq<Workload>)
    requires multiset(ws) == multiset(ws') && DistinctEntries(ws)
    ensures DistinctEntries(ws')
  {
    hide EntryKey;
    SameElements(ws, ws');
    NoDuplicatesMultiset(ws);
    forall i, j | 0 <= i < j < |ws'| ensures EntryKey(ws'[i].Ref()) != EntryKey(ws'[j].Ref()) {
      if ws'[i] == ws'[j] {
        TwoOccurrences(ws', i, j);
      } else {
        assert ws'[i] in ws && ws'[j] in ws;
      }
    }
  }

  /** Any permutation of workloads with distinct entries gives the identical report. */
  lemma OrderIndependence(g: Graph, ws: seq<Workload>, assumeBreach: bool)
    requires multiset(g.workloads) == multiset(ws)
    requires DistinctEntries(g.workloads)
    ensures Paths(g.(workloads := ws), assumeBreach) == Paths(g, assumeBreach)
  {
    var g' := g.(workloads := ws);
    SameElements(g.workloads, ws);
    DistinctEntriesPermute(g.workloads, ws);
    PathLessIsOrder();
    var a, b := FlatMap(PathsOf(g, assumeBreach), g.workloads), FlatMap(PathsOf(g', assumeBreach), ws);
    PathsWithoutTies(g, g.workloads, assumeBreach);
    PathsWithoutTies(g', ws, assumeBreach);
    SortedWithoutTies(PathLess, a);
    SortedWithoutTies(PathLess, b);
    forall p ensures p in StableSort(PathLess, a) <==> p in StableSort(PathLess, b) {
      PathsMembers(g, assumeBreach, p);
      PathsMembers(g', assumeBreach, p);
      forall w ensures PathFor(g, w, assumeBreach) == PathFor(g', w, assumeBreach) {
        PathForSame(g, ws, w, assumeBreach);
      }
      if w :| w in g.workloads && PathFor(g, w, assumeBreach) == Some(p) { assert w in ws; }
      if w :| w in ws && PathFor(g', w, assumeBreach) == Some(p) { assert w in g.workloads; }
    }
    StrictlySortedUnique(PathLess, StableSort(PathLess, a), StableSort(PathLess, b));
  }

  // ----- blast radius is monotone -----

  /** `g'` is `g` with services, bindings, roles or workloads added; roles are appended. */
  ghost predicate Grows(g: Graph, g': Graph) {
    && Within(g.workloads, g'.workloads)
    && g.serviceAccounts == g'.serviceAccounts
    && g.roles <= g'.roles && g.clusterRoles <= g'.clusterRoles
    && Within(g.roleBindings, g'.roleBindings) && Within(g.clusterRoleBindings, g'.clusterRoleBindings)
    && Within(g.services, g'.services)
  }

  lemma RoleRulesGrow(g: Graph, g': Graph, kind: string, name: string)
    requires g.roles <= g'.roles && g.clusterRoles <= g'.clusterRoles
    ensures RoleRules(g, kind, name).Some? ==> RoleRules(g', kind, name) == RoleRules(g, kind, name)
  {
    assert g'.roles == g.roles + g'.roles[|g.roles|..];
    assert g'.clusterRoles == g.clusterRoles + g'.clusterRoles[|g.clusterRoles|..];
    FirstNamedAppend(g.roles, g'.roles[|g.roles|..], name);
    FirstNamedAppend(g.clusterRoles, g'.clusterRoles[|g.clusterRoles|..], name);
  }

  /** Every grant survives, with at least its old rules. */
  lemma GrantSurvives(g: Graph, g': Graph, namespace: string, name: string, gr: GrantedRole) returns (gr': GrantedRole)
    requires g.roles <= g'.roles && g.clusterRoles <= g'.clusterRoles
    requires Within(g.roleBindings, g'.roleBindings) && Within(g.clusterRoleBindings, g'.clusterRoleBindings)
    requires gr in Granted(g, namespace, name)
    ensures gr' in Granted(g', namespace, name)
    ensures gr'.roleRef == gr.roleRef && Within(gr.rules, gr'.rules)
  {
    GrantedMembers(g, namespace, name, gr);
    var b :| GrantedBy(g, b, namespace, name, gr);
    gr' := ResolveRef(g', b.roleRef, b.name);
    RoleRulesGrow(g, g', b.roleRef.kind, b.roleRef.name);
    assert GrantedBy(g', b, namespace, name, gr');
    GrantedMembers(g', namespace, name, gr');
  }

  lemma GrantsGrow(g: Graph, g': Graph, namespace: string, name: string)
    requires g.roles <= g'.roles && g.clusterRoles <= g'.clusterRoles
    requires Within(g.roleBindings, g'.roleBindings) && Within(g.clusterRoleBindings, g'.clusterRoleBindings)
    ensures IsClusterAdmin(g, namespace, name) ==> IsClusterAdmin(g', namespace, name)
    ensures CanReadSecrets(g, namespace, name) ==> CanReadSecrets(g', namespace, name)
    ensures CanCreatePods(g, namespace, name) ==> CanCreatePods(g', namespace, name)
  {
    if gr :| gr in Granted(g, namespace, name) && AdminGrant(gr) {
      var gr' := GrantSurvives(g, g', namespace, name, gr);
      assert AdminGrant(gr');
    }
    forall r | r in Rules(g, namespace, name) ensures r in Rules(g', namespace, name) {
      RulesMembers(g, namespace, name, r);
      var gr :| gr in Granted(g, namespace, name) && r in RulesOfGrant(gr);
      var gr' := GrantSurvives(g, g', namespace, name, gr);
      assert r in RulesOfGrant(gr');
      RulesMembers(g', namespace, name, r);
    }
  }

  /**
   * Adding services, bindings, workloads or (appended) roles, or assuming a breach, never
   * removes a workload's path nor lowers its severity.
   */
  lemma BlastRadiusMonotone(g: Graph, g': Graph, w: Workload, ab: bool, ab': bool)
    requires Grows(g, g') && (ab ==> ab')
    ensures var p, p' := PathFor(g, w, ab), PathFor(g', w, ab');
      p.Some? ==> p'.Some? && p.value.severity.Rank() <= p'.value.severity.Rank()
  {
    FactsGrow(g, g', w);
    StrongerFacts(FactsOf(g, w), FactsOf(g', w), w.Ref(), ab, ab');
  }

  lemma FactsGrow(g: Graph, g': Graph, w: Workload)
    requires Grows(g, g')
    ensures var f, f' := FactsOf(g, w), FactsOf(g', w);
      && f.escapes == f'.escapes && f.automount == f'.automount
      && (f.service.Some? ==> f'.service.Some?)
      && (f.admin ==> f'.admin) && (f.secrets ==> f'.secrets) && (f.pods ==> f'.pods)
  {
    GrantsGrow(g, g', w.namespace, w.serviceAccountName);
    if Exposed(g, w) {
      var svc :| svc in g.services && Fronts(g, svc, w.Ref());
      assert svc in g'.services && Fronts(g', svc, w.Ref());
    }
  }

  /** Adding network policies can only drop the final lateral-movement hop. */
  lemma NetworkPolicyOnlyStopsLateral(g: Graph, nps: seq<NetworkPolicy>, w: Workload, ab: bool)
    requires Within(g.networkPolicies, nps)
    ensures var g' := g.(networkPolicies := nps);
      var p, p' := PathFor(g, w, ab), PathFor(g', w, ab);
      && (p.Some? <==> p'.Some?)
      && (p.Some? ==>
            && p.value.severity == p'.value.severity
            && (p'.value == p.value
                || (p.value.hops != [] && p.value.hops[|p.value.hops| - 1].to == LateralMovement
                    && p'.value.hops == p.value.hops[..|p.value.hops| - 1])))
  {
    var g' := g.(networkPolicies := nps);
    hide PathFrom;
    assert FactsOf(g', w) == FactsOf(g, w).(defaultDeny := HasDefaultDeny(g', w.namespace)) by {
      FactsSame(g, g', w);
    }
    assert HasDefaultDeny(g, w.namespace) ==> HasDefaultDeny(g', w.namespace);
    if !HasDefaultDeny(g, w.namespace) {
      DefaultDenyStopsLateral(FactsOf(g, w), w.Ref(), ab);
    }
  }

  // ----- names and numbers in the report -----

  /** The exposing service is the first one that fronts the workload. */
  lemma {:induction false} ExposedByFirst(g: Graph, services: seq<Service>, ref: ResourceRef)
    requires ExposingService(g, services, ref).Some?
    ensures exists i :: (0 <= i < |services| && Fronts(g, services[i], ref)
                         && ExposingService(g, services, ref) == Some(services[i].name)
                         && forall j :: 0 <= j < i ==> !Fronts(g, services[j], ref))
  {
    hide Fronts;
    if !Fronts(g, services[0], ref) {
      ExposedByFirst(g, services[1..], ref);
      var i :| 0 <= i < |services[1..]| && Fronts(g, services[1..][i], ref)
        && ExposingService(g, services[1..], ref) == Some(services[1..][i].name)
        && forall j :: 0 <= j < i ==> !Fronts(g, services[1..][j], ref);
      assert services[i + 1] == services[1..][i];
      assert forall j :: 0 < j < i + 1 ==> services[j] == services[1..][j - 1];
    }
  }

  /** The number a string of digits reads as. */
  function Reading(digits: string): int {
    if digits == "" then 0 else 10 * Reading(digits[..|digits| - 1]) + (digits[|digits| - 1] as int - '0' as int)
  }

  /** A path id is its number in decimal, padded to three digits. */
  lemma {:induction false} PathIdReads(n: nat)
    ensures PathId(n)[..3] == "AP-" && Reading(PathId(n)[3..]) == n && |PathId(n)| >= 6
    ensures n < 1000 ==> |PathId(n)| == 6
  {
    var pad := if n < 10 then "00" else if n < 100 then "0" else "";
    assert PathId(n) == "AP-" + (pad + Digits(n));
    assert PathId(n)[3..] == pad + Digits(n);
    DigitsRead(n);
    Padded(pad, Digits(n));
    assert Reading("0") == 0 && Reading("00") == 0 by { assert "00"[..1] == "0" && "0"[..0] == ""; }
  }

  lemma {:induction false} DigitsRead(n: nat)
    ensures Reading(Digits(n)) == n && |Digits(n)| >= 1
    ensures (n < 10 <==> |Digits(n)| == 1) && (n < 100 <==> |Digits(n)| <= 2) && (n < 1000 <==> |Digits(n)| <= 3)
  {
    var d := Digits(n);
    if n >= 10 {
      DigitsRead(n / 10);
      assert d[..|d| - 1] == Digits(n / 10);
    } else {
      assert d[..0] == "";
    }
  }

  lemma {:induction false} Padded(pad: string, d: string)
    requires forall c :: c in pad ==> c == '0'
    ensures Reading(pad + d) == Reading(d)
  {
    if d == "" {
      assert pad + d == pad;
      if pad != "" {
        var front := pad[..|pad| - 1];
        assert pad == front + [pad[|pad| - 1]];
        assert forall c :: c in front ==> c in pad;
        Padded(front, "");
        assert front + "" == front && pad[|pad| - 1] in pad;
      }
    } else {
      assert (pad + d)[..|pad + d| - 1] == pad + d[..|d| - 1];
      Padded(pad, d[..|d| - 1]);
    }
  }

  // ----- readings of the graph -----

  /** Only load balancers and node ports are external. */
  lemma ExternalExact(svc: Service)
    ensures External(svc) <==> svc.exposure in {"LoadBalancer", "NodePort"}
  {
  }

  /** An account object of the workload's ServiceAccount. */
  ghost predicate IsAccount(g: Graph, w: Workload, sa: ServiceAccount) {
    sa in g.serviceAccounts && sa.namespace == w.namespace && sa.name == w.serviceAccountName
  }

  /** The pod's setting decides; without one the ServiceAccount's; without one the token is mounted. */
  lemma AutomountMeaning(g: Graph, w: Workload)
    ensures w.podSpec.automount.Some? ==> (AutomountOn(g, w) <==> w.podSpec.automount.value)
    ensures w.podSpec.automount.None? && (forall sa :: IsAccount(g, w, sa) ==> sa.automount != Some(false)) ==>
      AutomountOn(g, w)
    ensures (w.podSpec.automount.None? && (exists sa :: IsAccount(g, w, sa))
             && (forall sa :: IsAccount(g, w, sa) ==> sa.automount == Some(false))) ==> !AutomountOn(g, w)
  {
    AccountFound(g.serviceAccounts, w.namespace, w.serviceAccountName);
  }

  lemma {:induction false} AccountFound(sas: seq<ServiceAccount>, namespace: string, name: string)
    ensures match ServiceAccountByName(sas, namespace, name)
      case Some(sa) => sa in sas && sa.namespace == namespace && sa.name == name
      case None => forall sa :: sa in sas ==> sa.namespace != namespace || sa.name != name
  {
    if sas != [] {
      AccountFound(sas[1..], namespace, name);
      assert sas == [sas[0]] + sas[1..];
    }
  }
}
