# KubeGuard, verified

A Dafny model of the three cores of KubeGuard and proofs about them.

1. **Detect, chain, score, comply.** A scan turns a resource graph into findings; the attack engine
   walks each workload up a capability ladder and names the check that enables each hop; the risk
   engine scores findings from paths; the compliance engine computes posture twice; the analyzer
   assembles the report. The theorems relate these separate pieces of code: each check fires on
   exactly the resources with its defect, every hop rests on a finding (with two exact exceptions),
   a clean scan has no path, the blast radius is monotone, the report does not depend on the order of
   workloads, and every supported hop is ranked with the full worth of its path.
2. **The dashboard's state.** The tenant-partitioned store, the triage and waiver handlers, the audit
   log, the fleet merge, the event broker and the scan worker pool. The theorems are about every run:
   the representation invariant, tenant non-interference, no waiver without its audit proof,
   conservation of jobs and of events.
3. **The event stream.** The server prints frames, the browser re-parses an arbitrarily cut text. The
   round trip holds for every list of events and every way of cutting the text.

Files: `Common`, `Ordering` (string order, stable sort), `Api` (report types), `Graph`, `Ladder`,
`Attack`, `Checks`, `Detection`, `ChainSoundness`, `Risk`, `Compliance`, `Merge`, `Analyzer`, `Rows`
(triage rows), `Store`, `Isolation`, `Dashboard` (handlers), `LifecycleRuns`, `TriageLane`, `Broker`,
`Workers`, `Sse`, `Interleaving` (handlers split at their locks), `Slices` (shared backing arrays). The
loops that build or change something, and the searches behind ServiceAccount rights, exposing services
and default-deny, are methods proved against functions, and the theorems are about the functions. The
other early-return searches (escape predicates, role and ServiceAccount lookup, privileged subjects,
dangerous fronted workloads, whether all checks of a control ran, the headline of a path) are predicates
or recursive functions. The store, the audit log and the handlers are classes whose methods are proved
against the step functions the run theorems use. Check the project with `dafny verify dfyconfig.toml`.

Modelling choices: SHA-256 is an arbitrary function from strings to strings, so nothing rests on the
absence of collisions; JSON is a pair of functions with stated laws (`Sse.Lawful`) that
`Sse.LawfulCodecExists` shows can be met; float rates are exact reals; clock readings are nanoseconds
and stored stamps whole seconds, because the RFC 3339 text that is stored drops fractions, and stamps
compare as numbers where the code compares their UTC text; counts are naturals;
`sort.SliceStable` is an insertion sort proved stable; iteration over a Go map picks any remaining key.

## Findings about the code

- The node hop of an escape through a capability alone cites KG-001 although no container is
  privileged, and the lateral hop of a workload without a namespace cites KG-017, which never looks at
  the empty namespace (`ChainSoundness.ChainSound`, `ChainSoundness.BothExceptionsHappen`).
- A pass rate is reported as 100% exactly when at most one assessed control in 20000 is breached
  (`Compliance.RateExtremes`, `Compliance.RateRoundsBreachAway`).
- A scan records its report and seeds its rows in two store calls; a cluster deletion between them
  leaves rows behind (`Isolation.OrphanedRows`). Deletions do not remove them while the cluster's id
  stays unregistered: short of overwriting the row or erasing the tenant, they survive every run in
  which the id is neither registered nor scanned (`Isolation.OrphanOutlives`). Registering the id and
  deleting the cluster removes them (`Isolation.ReregisteringClears`).
- A waiver that ends within the current second is accepted, stored and already expired
  (`LifecycleRuns.ActiveAtCreation`, `LifecycleRuns.ExpiredOnArrival`).
- A handler stores its row and writes its audit entry under separate locks. Between the two, a waiver
  has no proof; a purge of the log strips stored waivers of theirs (`Interleaving.PurgeExact`); and an
  erasure between load and store leaves a stored waiver without proof in the erased tenant, although
  every handler has finished (`Interleaving.ErasureInsideWindow`).
- A merge appends to the breach list of the first stored report that carries a framework, once for each
  further report. It runs under a read lock and writes into the list's spare capacity, so a later merge
  can overwrite elements of a report already returned. That result survives exactly when its own merge
  had to allocate, or when what the later merge wrote before its first allocation agrees with it
  (`Slices.EarlierResultSurvives`); three breaches in an array of four are enough
  (`Slices.EarlierResultChanges`), and allocating late does not help (`Slices.LateAllocationOverwrites`).
- A scan request tests the pool, reads it again and sends without a lock. It panics on the missing pool
  when it reads after `Close` has returned, and on the closed queue when it sends after `Close` was
  entered, even after its return (`Workers.PanicsExactly`, `Workers.PanicsAfterReturn`).
- A triage or waiver of a finding that a scan has recorded but not seeded yet replaces the time the seed
  sets (`Interleaving.SeedInsideWindow`, `Interleaving.UntrackedIsLoaded`); a step changes a row's first
  sighting exactly by storing another one (`Interleaving.FirstSeenExact`).
- A page of scans with a negative offset, or with a limit that overflows the sum, panics
  (`Store.PageExact`).
- A tenant that erases itself purges the audit proof of that erasure (`LifecycleRuns.ErasureProof`);
  the comment at internal/dashboard/audit.go:49-51 says that the record survives the purge.
- Two different findings hash the same bytes when a field contains a NUL character, and only then
  (`Rows.UnambiguousIffNulFree`).
- internal/checks/profile.go:48 speaks of 20 checks; the registry has 22, and the model follows it.

## Model

| member | source | states |
|---|---|---|
| Sse.ParseSSE | web/src/lib/api/sse.ts:11-29 | one parser call delivers the events of the complete frames and keeps the text behind the last blank line |
| Sse.OpenStream | web/src/lib/api/client.ts:217-227 | after any list of chunks, delivered events and buffer are those of parsing the joined text at once |
| Sse.HandleStream | internal/dashboard/api.go:511-523 | the handler's writes are the printed form of the events received, in order |
| Sse.SplitConcat | web/src/lib/api/sse.ts:13-14 | splitting p+q re-splits only the last piece of p |
| Sse.ParseConcat | web/src/lib/api/sse.ts:11-29 | parsing p+q delivers what p delivers and then what the tail of p followed by q delivers |
| Sse.ReadIsParse | web/src/lib/api/client.ts:217-227 | the read loop gives the same result for every way of cutting a text |
| Sse.ParsePrinted | web/src/lib/api/sse.ts:11-29 | parsing printed frames gives the events with known kinds, in order, and an empty tail |
| Sse.RoundTrip | internal/dashboard/api.go:511-523 | for every cut of the server's output the client delivers exactly the published events with no tail, if and only if the client's schema knows every kind |
| Sse.UnknownKindsSkipped | web/src/lib/api/sse.ts:20-26 | events of unknown kinds are skipped and nothing else is lost or reordered |
| Sse.CutStream | web/src/lib/api/sse.ts:11-29 | a text cut after any number of characters delivers exactly the known events of the whole frames and keeps the cut frame |
| Sse.DroppedConnection | web/src/lib/api/client.ts:217-227 | a connection dropped anywhere has delivered exactly the known events whose frames arrived whole |
| Sse.LawfulCodecExists | internal/dashboard/api.go:519-520 | the laws assumed of JSON can be met |
| Sse.FrameLines | internal/dashboard/api.go:520-520 | a printed frame is an event line with the kind and a data line with the document |
| Sse.DataLinesJoin | web/src/lib/api/sse.ts:16-22 | two data lines are decoded as one document with a line break between them |
| Sse.CommentsIgnored | web/src/lib/api/sse.ts:20-20 | a frame without a data line delivers nothing |
| Sse.TrimMeaning | web/src/lib/api/sse.ts:19-19 | trimming removes white space at both ends and nothing else |
| Ordering.StableSortCorrect | internal/checks/check.go:133-147 | stable sorting gives a sorted permutation that keeps tied elements in input order |
| Ordering.StrictlySortedUnique | internal/attack/engine.go:328-339 | a strictly sorted list is determined by its set of elements |
| Ordering.StringLessMeaning | internal/attack/engine.go:328-339 | one string is less than another exactly when it is a proper prefix or has the smaller character where they first differ |
| Graph.GrantedRolesForSA | internal/graph/resolve.go:18-31 | the loops collect the resolved grants of every matching binding, cluster bindings first |
| Graph.GrantedMembers | internal/graph/resolve.go:18-72 | a grant is listed exactly when some binding names the account and resolves to it |
| Graph.SaRules | internal/graph/rbac.go:55-66 | the loop collects the rules of every grant, preceded by an implicit full wildcard for a grant of cluster-admin |
| Graph.SAIsClusterAdmin | internal/graph/rbac.go:70-82 | true exactly when some grant is of cluster-admin or carries a full wildcard rule |
| Graph.SACanReadSecrets | internal/graph/rbac.go:85-92 | true exactly when some rule of the account grants secrets |
| Graph.SACanCreatePods | internal/graph/rbac.go:95-102 | true exactly when some rule of the account grants pod creation or exec |
| Graph.RulesMembers | internal/graph/rbac.go:55-66 | a rule applies to an account exactly when one of its grants carries it |
| Graph.AdminImpliesAll | internal/graph/rbac.go:70-102 | a cluster-admin account can also read secrets and create pods |
| Graph.WorkloadsForService | internal/graph/resolve.go:76-97 | exactly the workloads in the namespace whose labels match a non-empty selector, in order |
| Graph.FindDefaultDeny | internal/graph/resolve.go:120-127 | true exactly when the namespace has a default-deny policy |
| Graph.FirstNamedAppend | internal/graph/resolve.go:51-72 | appended roles never displace an earlier role of the same name |
| Graph.GrantsExact | internal/graph/resolve.go:35-49 | a binding grants to an account exactly when a subject names it, with its own namespace or, if it has none, the binding's |
| Graph.OtherNamespaceNeverGrants | internal/graph/resolve.go:35-49 | subjects with another name or an explicit other namespace grant nothing to the account |
| Graph.RulesExact | internal/graph/rbac.go:29-50 | which resources and verbs grant secrets, pod creation and everything |
| Graph.NoVerbNoSecrets | internal/graph/rbac.go:85-92 | an account without a reading verb in any rule reads no secrets |
| Graph.DefaultDenyExact | internal/graph/resolve.go:120-127 | a policy denies by default exactly when it selects every pod and has no rule for a direction it governs |
| Graph.SelectsExact | internal/graph/resolve.go:76-96 | a service selects exactly the workloads of its namespace that carry every label of its non-empty selector |
| Ladder.BuildPath | internal/attack/engine.go:56-134 | the hop-appending builder gives the numbered and linked chain of the steps the facts allow, or nothing below high severity |
| Ladder.PathSeverity | internal/attack/engine.go:230-243 | the loop computes the fold over the hops and the final capability |
| Ladder.SeverityIsMaximum | internal/attack/engine.go:216-243 | the severity is the strongest among the capabilities mentioned and is attained by one of them |
| Ladder.ClosedForm | internal/attack/engine.go:56-134 | a path exists exactly when escape, or (exposed or breach assumed) with a usable token; it is critical exactly when a node or cluster-admin is reached, else high |
| Ladder.PathShape | internal/attack/engine.go:56-134 | hops are numbered from one, each starts where the last ended, capabilities strictly climb one ladder, and there are at most seven |
| Ladder.HeadlineClosedForm | internal/attack/engine.go:247-294 | a path is headlined by cluster-admin, else node access, else secrets, else pod creation |
| Ladder.StrongerFacts | internal/attack/engine.go:56-134 | stronger facts never lose a path nor lower its severity |
| Ladder.DefaultDenyStopsLateral | internal/attack/engine.go:117-121 | default-deny removes the final lateral hop and nothing else |
| Ladder.HopsReach | internal/attack/engine.go:56-121 | a path has a hop to a capability exactly when the facts lead there |
| Ladder.HopsFromInternet | internal/attack/engine.go:67-79 | a path starts on the internet exactly when a service exposes its workload |
| Ladder.HopsTagged | internal/attack/engine.go:67-121 | every hop carries the ATT&CK technique of the capability it reaches |
| Ladder.TitleClosedForm | internal/attack/engine.go:281-294 | a path is titled by its worst outcome |
| Attack.PathExists | internal/attack/engine.go:56-134 | the existence and severity condition in terms of the graph |
| Attack.FindExposingService | internal/attack/engine.go:180-192 | the first external service that selects a workload with this identity, if any |
| Attack.CollectFacts | internal/attack/engine.go:67-98 | the searches together give the facts the closed form is about |
| Attack.BuildPaths | internal/attack/engine.go:42-54 | the engine's loop, sort and numbering give the list of all workloads' paths with the most severe first, then fewer hops, then by entry |
| Attack.AssignIds | internal/attack/engine.go:50-52 | paths are numbered from AP-001 in order and otherwise unchanged |
| Attack.PathsMembers | internal/attack/engine.go:42-54 | a path is reported exactly when some workload has it |
| Attack.OrderIndependence | internal/attack/engine.go:328-341 | any permutation of workloads with distinct entries gives the identical list with identical ids |
| Attack.GrantsGrow | internal/graph/rbac.go:70-102 | adding bindings or appending roles never takes away admin, secrets or pod creation |
| Attack.BlastRadiusMonotone | internal/attack/engine.go:56-134 | adding services, bindings, workloads or roles, or assuming a breach, never removes a path nor lowers its severity |
| Attack.NetworkPolicyOnlyStopsLateral | internal/graph/resolve.go:109-127 | adding network policies can only drop the final lateral hop |
| Attack.ExposedByFirst | internal/attack/engine.go:180-192 | the service a path names is the first external one that fronts the workload |
| Attack.PathIdReads | internal/attack/engine.go:50-52 | a path id is its number in decimal padded to three digits |
| Attack.ExternalExact | internal/attack/engine.go:182-184 | only load balancers and node ports are external |
| Attack.AutomountMeaning | internal/attack/engine.go:194-202 | the pod's setting decides, then the ServiceAccount's, then the token is mounted |
| Checks.RunPrivileged | internal/checks/workload_checks.go:91-101 | one KG-001 finding per privileged container, in order |
| Checks.RunHostPath | internal/checks/workload_checks.go:116-131 | one KG-002 finding per hostPath volume, lowered to high outside the sensitive paths |
| Checks.RunDangerousCaps | internal/checks/workload_checks.go:190-202 | one KG-008 finding per added dangerous capability |
| Checks.RunAutomount | internal/checks/workload_checks.go:447-467 | one KG-015 finding per workload with an effective token mount |
| Checks.RunAdminBinding | internal/checks/rbac_checks.go:69-100 | one KG-011 finding per binding of an account or group to an admin role |
| Checks.RunRoles | internal/checks/rbac_checks.go:141-176 | one KG-013 or KG-014 finding per role with an offending rule |
| Checks.RunNetworkPolicy | internal/checks/network_checks.go:21-42 | one KG-017 finding per non-empty namespace with workloads and no default-deny, in name order whatever the map order |
| Checks.SortedKeysUnique | internal/checks/network_checks.go:21-42 | sorting a set's elements gives one list whatever order they came in |
| Checks.RunExposure | internal/checks/exposure_checks.go:20-57 | one KG-018 finding per external service, raised to high for a load balancer that fronts a dangerous workload |
| Checks.Scan | internal/checks/check.go:114-147 | the loop runs the included checks, applies severity overrides and returns the findings most severe first, then by category, check and resource |
| Checks.ScanReports | internal/checks/check.go:114-130 | a scan reports exactly the findings of the included checks, up to severity overrides |
| Checks.ScanOrigin | internal/checks/check.go:114-130 | a reported finding is one of an included check's, changed in severity only, and only where the profile overrides that check |
| Checks.DefaultSeverity | internal/checks/workload_checks.go:80-131 | the severity and category each modelled check gives on its own |
| Checks.FrontsDangerousExact | internal/checks/exposure_checks.go:36-57 | a service fronts a dangerous workload exactly when it selects one that is privileged, mounts a host path or is cluster-admin |
| Checks.PrivSubjectExact | internal/checks/rbac_checks.go:30-37 | ServiceAccounts and groups are privileged subjects, users are not |
| Detection.FindingsExact | internal/checks/workload_checks.go:91-131 | the findings of each modelled check name exactly the resources with the defect it looks for |
| Detection.CheckLabels | internal/checks/check.go:43-55 | every finding carries the id of its check |
| Detection.IdsDistinct | internal/checks/check.go:101-110 | no two registered checks share an id |
| Detection.DetectsFires | internal/checks/check.go:114-130 | a defect an included check looks for is always reported |
| Detection.ScanIsExact | internal/checks/check.go:114-130 | a scan reports a check on a resource if and only if the profile runs the check and the resource has its defect |
| Detection.ProfileSelects | internal/checks/profile.go:31-46 | an excluded or unlisted check is never reported, every other one runs |
| ChainSoundness.AutomountAgree | internal/attack/engine.go:194-202 | the engine and KG-015 agree on which workloads mount a token |
| ChainSoundness.RoleLookupAgree | internal/checks/rbac_checks.go:12-28 | the check and the resolver find the same rules and agree on what is an admin role |
| ChainSoundness.EscapeCapsAreDangerous | internal/attack/engine.go:34-37 | every capability that allows an escape is one KG-008 reports |
| ChainSoundness.OutcomeSupported | internal/attack/engine.go:67-121 | the scan fires the check a hop cites on an object the hop goes through, except exactly in the two exceptions |
| ChainSoundness.ChainSound | internal/attack/engine.go:56-134 | on every graph shaped as the builder makes it, each hop of each path is backed by a finding of its cited check on that path, if and only if it is neither the node hop of a capability-only escape nor the lateral hop of a workload without namespace |
| ChainSoundness.BothExceptionsHappen | internal/attack/engine.go:161-178 | one pod shows both exceptions |
| ChainSoundness.CleanScanNoPath | internal/attack/engine.go:42-126 | if the scan runs the four checks behind escapes and tokens and reports nothing, there is no path, with or without an assumed breach, on any graph |
| Risk.AnalyzePaths | internal/risk/risk.go:134-165 | the map holds, for each check, the joined signals of the paths it enables a hop of |
| Risk.SignalsMeaning | internal/risk/risk.go:134-165 | a check carries a signal exactly when some path it enables a hop of shows it |
| Risk.Score | internal/risk/risk.go:65-130 | the result is a permutation of one score per finding, highest score first, then severity, then check id |
| Risk.PointsAreWeightedSum | internal/risk/risk.go:78-117 | the recorded factors sum to the published weighted sum |
| Risk.ScoreRange | internal/risk/risk.go:65-130 | every score is the sum of its factors and lies in 0..135 |
| Risk.ScoreRangeTight | internal/risk/risk.go:19-51 | both ends of the range are reached |
| Risk.ScoreMonotone | internal/risk/risk.go:65-165 | more paths and findings never lower a score |
| Risk.ScoreTable | internal/risk/risk.go:19-118 | a score in numbers: base weight by severity, path weight by signals, breadth of at most ten |
| Risk.HopSignalsMeaning | internal/risk/risk.go:134-165 | a list of hops carries a signal exactly when one of its hops shows it |
| Risk.AffectedResources | internal/risk/risk.go:69-75 | breadth counts distinct resources, as long as kinds and namespaces have no slash |
| Compliance.Evaluate | internal/compliance/evaluate.go:13-45 | the loop computes the assessed controls, the breaches in order, the counts and the rate |
| Compliance.EvaluateAll | internal/compliance/evaluate.go:48-54 | one result per pack, in order |
| Compliance.FiredChecks | internal/compliance/evaluate.go:79-86 | the set of ids with at least one finding |
| Compliance.BuildEvidence | internal/compliance/evidence.go:16-62 | one evidence pack per pack, with the findings of each assessed control |
| Compliance.ControlAgrees | internal/compliance/evidence.go:32-54 | a control is breached in one computation exactly when it is in the other, by the same checks |
| Compliance.ComputationsAgree | internal/compliance/evaluate.go:13-45 | for every pack, executed set and report both computations give the same counts, the same rate and the same breached controls in the same order |
| Compliance.RateIsClose | internal/compliance/evaluate.go:40-43 | a rate is within 1/20000 of the true one and lies in [0,1] |
| Compliance.RateExtremes | internal/compliance/evaluate.go:96-96 | a rate is 1 exactly when 20000 times the breached controls is at most the assessed ones, and 0 exactly when 20000 times the passed ones is less |
| Compliance.RateHonestBelow20000 | internal/compliance/evaluate.go:40-43 | below 20000 assessed controls 1 means nothing breached and 0 means nothing passed |
| Compliance.RateRoundsBreachAway | internal/compliance/evaluate.go:96-96 | one breach in 20000 controls is rounded away |
| Compliance.Summarize | internal/compliance/evaluate.go:57-77 | counts findings by severity, critical paths and controls, with the rounded overall rate |
| Compliance.BreachesMeaning | internal/compliance/evaluate.go:19-37 | a breach is reported exactly for the assessable controls all of whose checks ran and some of whose checks fired |
| Compliance.BreachLists | internal/compliance/evaluate.go:23-36 | a breach carries its control's id and title and lists exactly the mapped checks that fired, sorted |
| Compliance.EvaluationCounts | internal/compliance/evaluate.go:13-45 | assessed counts the assessable, fully run controls, and the rate is within 1/20000 of the share that passed |
| Compliance.SummaryMeaning | internal/compliance/evaluate.go:57-66 | findings, findings per severity and critical paths, counted directly |
| Compliance.EvidenceHeader | internal/compliance/evidence.go:22-31 | an evidence pack carries the report's and the pack's header |
| Compliance.EvidenceInOrder | internal/compliance/evidence.go:32-53 | one entry per assessed control, in order |
| Compliance.EvidenceFindings | internal/compliance/evidence.go:37-49 | a control's evidence is exactly the findings of the checks it maps to |
| Merge.MergeReports | internal/dashboard/memstore.go:326-368 | the index-keeping loops compute the specified merge, and every merged framework with assessed controls has the exact share that passed as its rate |
| Merge.MergeCompliance | internal/dashboard/memstore.go:339-349 | the position index stays in step with the merged list |
| Merge.FoldMeetsSpec | internal/dashboard/memstore.go:339-349 | each framework appears once, in first-seen order, with everything reported about it combined |
| Merge.FrameworksAssociative | internal/dashboard/memstore.go:339-356 | merging two merged framework lists equals merging their inputs |
| Merge.MergeAssociative | internal/dashboard/memstore.go:326-368 | merging A++B equals merging the merge of A with the merge of B |
| Merge.FoldConserves | internal/dashboard/memstore.go:339-349 | assessed, breached and passed totals are kept: no control is lost or counted twice |
| Merge.MergeConserves | internal/dashboard/memstore.go:326-363 | all framework totals are kept, posture totals stay equal to framework totals, and passed + breached stays equal to assessed |
| Merge.FleetRiskDominates | internal/dashboard/memstore.go:364-367 | a finding's fleet score is at least its score in its own cluster |
| Merge.FleetRanking | internal/dashboard/memstore.go:364-367 | the fleet ranking is a sorted permutation of one score per finding |
| Merge.TotalMeaning | internal/dashboard/memstore.go:339-349 | a merged framework has the first result's identity and the sums of its own results only |
| Merge.MergePair | internal/dashboard/memstore.go:326-338 | merging two reports appends findings and paths and adds up the posture |
| Slices.AppendReads | internal/dashboard/memstore.go:344-344 | one append reads as the concatenation and leaves what the stored list reads as |
| Slices.MergeReads | internal/dashboard/memstore.go:339-349 | the list a merge ends with reads as the stored list followed by all appended ones |
| Slices.MergedBreaches | internal/dashboard/memstore.go:339-349 | a merged framework lists the breaches of all its results in order |
| Slices.EarlierResultSurvives | internal/dashboard/memstore.go:339-349 | of two merges that start from the same stored list and append any number of lists, the first result still reads as returned if and only if the first merge had to allocate, or what the second wrote in place up to its own first allocation agrees with what the first had written |
| Slices.EarlierResultChanges | internal/dashboard/memstore.go:339-349 | with any three stored breaches, as an evaluation leaves them, the second merge replaces the breach the first one returned |
| Slices.LateAllocationOverwrites | internal/dashboard/memstore.go:339-349 | with room for two, a merge that appends one list in place and then allocates for the next overwrites too |
| Slices.FirstWithRoom | internal/compliance/evaluate.go:33-37 | appended one by one from nil, three breaches are the first list with room for another and five the first with room for two or more |
| Analyzer.RunnableIDs | internal/checks/profile.go:21-29 | the ids of exactly the registered checks the profile includes |
| Analyzer.NamedProfilesRunAll | internal/checks/profile.go:50-75 | exactly three names give a profile, and each of them runs every check |
| Analyzer.Analyze | internal/analyzer/analyzer.go:25-58 | the pipeline gives the specified report with sorted findings, or an error for an unknown profile |
| Analyzer.AnalysesAreSummarised | internal/analyzer/analyzer.go:45-55 | a report's posture is the summary of its own contents and its frameworks balance |
| Analyzer.FleetSummary | internal/dashboard/memstore.go:326-363 | the merge of summarised reports carries the summary of everything merged, its overall rate within 1/20000 of the rounded one |
| Analyzer.OnceKeepsRate | internal/dashboard/memstore.go:351-356 | an evaluated framework that one cluster reports keeps its counts, and its rate to within 1/20000 |
| Analyzer.PathSignals | internal/risk/risk.go:134-165 | a workload's path shows the internet, cluster-admin, a node or a token exactly when its facts lead there |
| Analyzer.EnablerScores | internal/risk/risk.go:90-107 | a finding whose check enables a hop of a path scores at least what that path is worth |
| Analyzer.HopIsRanked | internal/analyzer/analyzer.go:35-57 | every hop outside the two exceptions is backed by a reported finding of its check, ranked with at least the points its path is worth |
| Analyzer.FiredCheckBreaches | internal/compliance/evaluate.go:20-38 | every assessed control mapped to a check that fired is reported as breached by that check |
| Analyzer.CleanReport | internal/analyzer/analyzer.go:25-58 | without findings a report has no path, no risk, no breach, and full marks from every framework with assessed controls |
| Analyzer.AnalysisFindings | internal/analyzer/analyzer.go:35-50 | a report names its profile and holds exactly the scan's findings and those of every custom policy |
| Analyzer.AnalysisBreaches | internal/analyzer/analyzer.go:45-53 | every assessable control mapped to registered checks is breached in the report by each of them that fired |
| Analyzer.CisFlattensExposure | internal/checks/profile.go:54-63 | under the cis profile an exposed service is a medium finding whatever it fronts |
| Rows.EffectiveTwice | internal/dashboard/lifecycle.go:70-75 | applying expiry twice is applying it once |
| Rows.ExpiryIsFinal | internal/dashboard/lifecycle.go:43-52 | a lapsed waiver never becomes active again |
| Rows.UnambiguousIffNulFree | internal/dashboard/lifecycle.go:86-94 | the hashed bytes identify a finding exactly when no field contains a NUL |
| Rows.PreimageFields | internal/dashboard/lifecycle.go:86-94 | the hashed bytes are cluster, check, kind, namespace and name, each closed by a NUL |
| Rows.SortedRowsUnique | internal/dashboard/lifecycle.go:144-151 | rows with distinct keys sort into one list whatever order they arrived in |
| Store.MemStore.Register | internal/dashboard/memstore.go:53-62 | registers a new cluster last in order and leaves a known one alone |
| Store.MemStore.Delete | internal/dashboard/memstore.go:66-90 | removes the cluster, its place in the order and all its rows, or reports that it is unknown |
| Store.MemStore.Record | internal/dashboard/memstore.go:152-188 | adds one scan in front and one snapshot behind, and refreshes metadata and latest report |
| Store.MemStore.Provision | internal/dashboard/memstore.go:243-251 | creates the partition once and sets a non-empty display name |
| Store.MemStore.Erase | internal/dashboard/memstore.go:255-261 | removes everything held for the tenant and nothing else |
| Store.MemStore.Seed | internal/dashboard/memstore.go:267-285 | adds an open row for each untracked finding |
| Store.MemStore.Upsert | internal/dashboard/memstore.go:312-321 | stores the row under its own key |
| Store.MemStore.Get | internal/dashboard/memstore.go:288-293 | the row stored under a key, if any |
| Store.MemStore.List | internal/dashboard/memstore.go:297-309 | the tenant's or cluster's rows in one order fixed by finding id and key |
| Store.MemStore.Clusters | internal/dashboard/memstore.go:93-105 | cluster metadata in registration order |
| Store.MemStore.Scans | internal/dashboard/memstore.go:124-148 | one page of the scans, newest first, and their number, with 64-bit integers and the panic of a slice expression out of range |
| Store.PageExact | internal/dashboard/memstore.go:139-147 | taking a page panics if and only if the offset is negative or the sum overflows; otherwise the page is exactly the elements from the offset on, at most the limit |
| Store.ScansNewestFirst | internal/dashboard/memstore.go:131-138 | the scans are sorted newest first and hold every scan once |
| Store.ScansExact | internal/dashboard/memstore.go:124-148 | the scans are exactly those of the clusters asked for, latest start first |
| Store.MemStore.LatestReport | internal/dashboard/memstore.go:192-214 | a cluster's latest report, or the merge of all latest reports in order |
| Store.MemStore.GetHistory | internal/dashboard/memstore.go:218-237 | the snapshots, oldest first |
| Store.TimelineOldestFirst | internal/dashboard/memstore.go:225-232 | the snapshots are sorted oldest first and hold every snapshot once |
| Store.TimelineExact | internal/dashboard/memstore.go:218-237 | the history is exactly the snapshots of the clusters asked for, oldest first |
| Store.SeededRows | internal/dashboard/memstore.go:267-285 | seeding never touches a tracked row and adds exactly the missing keys as open rows |
| Store.SeedRowMeaning | internal/dashboard/memstore.go:280-283 | a seeded row is open, unassigned and first seen at the seed |
| Store.ScannedValid | internal/dashboard/memstore.go:152-188 | after a scan, scans are still the history reversed and metadata and latest report describe the newest scan |
| Store.SortedRowsOf | internal/dashboard/memstore.go:297-309 | any listing of the same rows sorts to the same list |
| Store.OrderEvolves | internal/dashboard/memstore.go:53-62 | a new cluster comes last, by registration or by its first scan |
| Store.FleetFindings | internal/dashboard/memstore.go:206-213 | the fleet report holds exactly the findings of every scanned cluster's latest report |
| Store.RecordedIsAnswered | internal/dashboard/memstore.go:152-188 | after a scan its report, metadata and scan are what is answered |
| Store.ReportedIffScanned | internal/dashboard/memstore.go:199-205 | a cluster has a report exactly when it has been scanned |
| Store.RegisteredIsAnswered | internal/dashboard/memstore.go:53-62 | a new cluster is answered as registered, a known one as before |
| Store.SnapshotMeaning | internal/dashboard/memstore.go:175-183 | a snapshot carries the posture's control totals, or the frameworks' when it has none |
| Store.UpsertedIsAnswered | internal/dashboard/memstore.go:288-321 | a stored row is what is answered under its key, and no other row changes |
| Store.ListedExactly | internal/dashboard/memstore.go:297-309 | rows are listed exactly for the tenant and the cluster asked for |
| Store.ListedInOrder | internal/dashboard/lifecycle.go:144-151 | rows are listed by finding id and then by key |
| Isolation.CallKeepsValid | internal/dashboard/memstore.go:43-321 | every store call keeps the representation invariant |
| Isolation.ReachableValid | internal/dashboard/memstore.go:43-321 | after any calls in any order: the order lists exactly the clusters without repetition, scans are the history reversed, hasScan means scans exist, metadata and report agree with the newest scan, every row is under its own key |
| Isolation.CallFrames | internal/dashboard/memstore.go:43-321 | a call for one tenant leaves every other tenant's view alone |
| Isolation.CallIsLocal | internal/dashboard/memstore.go:43-321 | an answer, and the tenant's view afterwards, depend on that tenant's view only |
| Isolation.NonInterference | internal/dashboard/memstore.go:43-321 | for every run, deleting all calls of other tenants changes no answer given to a tenant |
| Isolation.ErasureIsFresh | internal/dashboard/memstore.go:255-261 | after erasure a tenant is answered as in a fresh store for the rest of every run |
| Isolation.CallKeepsNoOrphans | internal/dashboard/memstore.go:66-90 | a call keeps rows attached to registered clusters if and only if the rows it writes belong to registered clusters |
| Isolation.OrphanedRows | internal/dashboard/api.go:357-360 | record, delete, seed leaves rows of a deleted cluster that deleting it again does not remove |
| Isolation.OrphanOutlives | internal/dashboard/memstore.go:66-90 | rows of an unregistered cluster survive every run until the id is registered or scanned again, the row is overwritten or the tenant is erased |
| Isolation.ReregisteringClears | internal/dashboard/memstore.go:53-90 | registering a cluster and deleting it removes exactly the rows of that id |
| Isolation.CallsTakeEffect | internal/dashboard/memstore.go:43-321 | what a tenant is answered right after each of its calls |
| Dashboard.MemAuditLog.Write | internal/dashboard/audit.go:36-40 | appends to the entry's tenant only |
| Dashboard.MemAuditLog.List | internal/dashboard/audit.go:43-47 | the tenant's entries in order |
| Dashboard.MemAuditLog.PurgeTenant | internal/dashboard/audit.go:52-56 | removes one tenant's entries and no others |
| Dashboard.API.LoadOrInitLifecycle | internal/dashboard/lifecycle_api.go:116-136 | the stored row, else an open one for the first current finding with that key, else none |
| Dashboard.FirstWithKeyFound | internal/dashboard/lifecycle_api.go:121-134 | the search finds a current finding with the key whenever there is one |
| Dashboard.LoadedMeaning | internal/dashboard/lifecycle_api.go:116-136 | a tracked finding is loaded as stored, an untracked one as an open row seen now, and only a current finding is found |
| Dashboard.API.HandleSetState | internal/dashboard/lifecycle_api.go:138-178 | validates, sets the state, clears the waiver, keeps the resolution time only for resolved, and audits the transition |
| Dashboard.API.HandleCreateWaiver | internal/dashboard/lifecycle_api.go:180-228 | refuses a missing justification or an expiry outside the allowed window, else accepts the risk and audits the approval |
| Dashboard.API.HandleDeleteWaiver | internal/dashboard/lifecycle_api.go:230-246 | reopens a waived row and audits the revocation; anything else is not found |
| Dashboard.API.HandleDeleteTenant | internal/dashboard/tenants_api.go:47-75 | erases exactly for the own tenant or a super-admin; otherwise answers forbidden, changes no data and adds one denied entry |
| Dashboard.API.RunScan | internal/dashboard/api.go:339-366 | at most three scanner calls; success records, seeds and audits once, failure only audits; the events published are the specified list |
| Dashboard.RunScanner | internal/dashboard/api.go:372-386 | the first success within three attempts; an error means three failures or a cancelled context |
| Dashboard.ScanEventsKnown | internal/dashboard/api.go:344-364 | every event a scan publishes has a kind the client's schema accepts |
| Dashboard.TriageStoresItsName | internal/dashboard/lifecycle_api.go:138-178 | triage accepts exactly four names and stores the state of that name, with the assignee, resolution time and audit entry that go with it |
| Dashboard.WaiverIsAsAsked | internal/dashboard/lifecycle_api.go:180-228 | a waiver is refused exactly for a missing text, a bad end or an unknown finding, and carries the text, actor, second and end asked for |
| Dashboard.RevocationReopens | internal/dashboard/lifecycle_api.go:230-246 | a revocation reopens exactly the rows with a waiver and logs it |
| Dashboard.ErasureDenied | internal/dashboard/tenants_api.go:54-59 | erasing another tenant without being super-admin is forbidden, changes no data and leaves one denied entry |
| Dashboard.ScanIsAudited | internal/dashboard/api.go:347-362 | a scan leaves one entry that says whether it succeeded, and a failed one stores nothing |
| Dashboard.ClusterChangesLogged | internal/dashboard/api.go:216-275 | cluster changes are logged under the actor's tenant, and deleting an unknown cluster changes nothing |
| Dashboard.ScanEventsMeaning | internal/dashboard/api.go:344-364 | a scan starts and completes exactly once, and the posture update follows success only |
| LifecycleRuns.StepKeeps | internal/dashboard/lifecycle_api.go:138-246 | every handler keeps the lifecycle invariant |
| LifecycleRuns.EveryRun | internal/dashboard/lifecycle_api.go:138-246 | after every run: risk-accepted exactly with a waiver, resolved exactly with a resolution time, every waiver justified, bounded, and matched by an allowed approval of its approver on the tenant's log, every row under the key of its identity and attached to a registered cluster |
| LifecycleRuns.BoundInWholeSeconds | internal/dashboard/lifecycle_api.go:200-208 | with a maximum of whole seconds every stored waiver ends within that maximum of its creation |
| LifecycleRuns.FirstSeenFixed | internal/dashboard/memstore.go:267-285 | while a row exists no handler changes its identity or when it was first seen |
| LifecycleRuns.SuppressionShrinks | internal/dashboard/lifecycle_api.go:251-259 | over every run without a waiver for a tenant, and as time passes, its set of suppressed findings only shrinks |
| LifecycleRuns.TriageNeverAccepts | internal/dashboard/lifecycle_api.go:138-152 | triage cannot set risk-accepted |
| LifecycleRuns.ActiveAtCreation | internal/dashboard/lifecycle_api.go:200-223 | for any three clock readings, a stored waiver is active at its creation if and only if it outlives that second |
| LifecycleRuns.ExpiredOnArrival | internal/dashboard/lifecycle_api.go:200-223 | for every tracked finding a waiver of a nanosecond is accepted and stored, and the finding is still effectively open |
| LifecycleRuns.ErasureProof | internal/dashboard/tenants_api.go:60-73 | an erasure's audit proof survives if and only if the target is not the actor's own tenant |
| LifecycleRuns.EraseNeedsAuthority | internal/dashboard/tenants_api.go:54-75 | an erasure changes another tenant's data only if its actor is a super-admin and named that tenant |
| LifecycleRuns.StepsTakeEffect | internal/dashboard/api.go:339-366 | a scan's report and a cluster change are what is answered next |
| Interleaving.AtomicHandler | internal/dashboard/lifecycle_api.go:138-246 | loading, storing and logging in one go is the atomic handler |
| Interleaving.UndisturbedSearch | internal/dashboard/lifecycle_api.go:121-134 | searching the reports cluster by cluster in a store that does not change finds the first current finding with the key |
| Interleaving.HandlerInOneGo | internal/dashboard/lifecycle_api.go:138-246 | on a tracked finding the three steps of a handler in a row do what the atomic handler does |
| Interleaving.ErasureInOneGo | internal/dashboard/tenants_api.go:54-75 | an erasure begins exactly with authority, and its steps in a row do what the atomic erasure does |
| Interleaving.EveryRunShaped | internal/dashboard/lifecycle_api.go:138-246 | under every interleaving of the split handlers, split erasures and single store calls and log writes of scans and cluster changes, every row keeps its key, waiver, resolution and bound rules |
| Interleaving.PurgeExact | internal/dashboard/tenants_api.go:62-73 | a purge keeps every waiver covered if and only if each waived row of its target is about to be logged |
| Interleaving.EveryRunCovered | internal/dashboard/lifecycle_api.go:224-226 | if no purge strips a stored waiver, each waiver is approved on the log or its handler is between storing and logging; with no handler there, every waiver is approved |
| Interleaving.ErasureInsideWindow | internal/dashboard/tenants_api.go:60-73 | for every waiver about to be stored, an erasure of its tenant in between, by itself or by a super-admin, brings the row back into the erased tenant, without cluster and without proof |
| Interleaving.RaceIsPossible | internal/dashboard/tenants_api.go:60-73 | that interleaving exists for every waiver about to be stored |
| Interleaving.GrantedWaiverIsLoaded | internal/dashboard/lifecycle_api.go:209-223 | every waiver granted on a tracked finding gets to the point of being stored |
| Interleaving.FirstSeenExact | internal/dashboard/lifecycle_api.go:128-131 | a step changes when a stored row was first seen if and only if it stores a row with another time under that key |
| Interleaving.FirstSeenOverRuns | internal/dashboard/lifecycle_api.go:116-136 | under every interleaving in which handlers find their findings tracked and no row is dropped under a handler about to store it, no step changes when a finding was first seen |
| Interleaving.SeedInsideWindow | internal/dashboard/api.go:357-360 | for every row about to be stored whose finding is untracked, a seed in between sets one time and the store replaces it |
| Interleaving.UntrackedIsLoaded | internal/dashboard/api.go:357-360 | from the empty system, a triage between the record and the seed of a scan gets to that point |
| TriageLane.HandleListLifecycle | internal/dashboard/lifecycle_api.go:55-111 | the items are the lane's rows in their one order whatever the map order, and each counter is the number of keys shown in that state |
| TriageLane.LaneRefines | internal/dashboard/lifecycle_api.go:55-111 | exactly one row per stored key or current finding key; risk-accepted is shown exactly for the waived keys |
| TriageLane.LaneShows | internal/dashboard/lifecycle_api.go:80-107 | a stored row is shown as stored but for lapsed acceptances, an untracked key as an open row of its first current finding |
| TriageLane.LaneRows | internal/dashboard/lifecycle.go:144-151 | the list has distinct keys, is strictly sorted and holds exactly the lane's rows |
| TriageLane.LaneTotals | internal/dashboard/lifecycle_api.go:55-111 | the five counters sum to the number of rows, which is the number of stored or current keys |
| TriageLane.RiskAcceptedCount | internal/dashboard/lifecycle_api.go:251-259 | the risk-accepted counter is the number of waived keys although expiry is applied twice |
| TriageLane.CountersAreShown | internal/dashboard/lifecycle.go:110-126 | each of the five counters is the number of keys the lane shows in that state |
| TriageLane.MeanOfEqual | internal/dashboard/lifecycle.go:127-138 | rows resolved in the same number of hours have that mean, and rows without both times do not count |
| TriageLane.WaivedKeys | internal/dashboard/lifecycle_api.go:251-259 | exactly the keys of rows with an active waiver |
| TriageLane.ComputeMTTR | internal/dashboard/lifecycle.go:110-140 | the counters count effective states and the mean is over resolved rows with ordered times |
| TriageLane.CountersPartition | internal/dashboard/lifecycle.go:110-131 | the five counters sum to the number of rows |
| TriageLane.MeanNonNegative | internal/dashboard/lifecycle.go:124-139 | the total behind the mean is never negative |
| Broker.StepKeeps | internal/dashboard/broker.go:34-63 | every step of every interleaving keeps the broker's invariant |
| Broker.EveryRun | internal/dashboard/broker.go:34-63 | the invariant holds in every reachable state |
| Broker.BrokerSafe | internal/dashboard/broker.go:34-63 | no send on a closed queue, at most 16 queued, only the own tenant's messages, each at most once and in each publisher's order; a finished publication missed a subscriber only at a full queue |
| Broker.PublicationReaches | internal/dashboard/broker.go:51-63 | over every run, a subscriber registered when a publication of its tenant begins has got it when it ends, or lost it to a queue of 16 |
| Broker.RegisteredExactly | internal/dashboard/broker.go:34-47 | a subscriber is registered exactly from its subscription to its unsubscription |
| Broker.GotGrows | internal/dashboard/broker.go:34-63 | what a subscriber has got only grows at its end: its queue is first in, first out |
| Broker.DropsOnlyWhenFull | internal/dashboard/broker.go:58-61 | only a send that meets a full queue of the same tenant drops a message |
| Broker.PublisherToBrowser | internal/dashboard/api.go:496-523 | under every interleaving and every cut of the text the browser delivers exactly the events its queue handed over |
| Workers.StepKeeps | internal/dashboard/workers.go:24-58 | every step of every interleaving keeps the accounts of jobs, scans and audit entries |
| Workers.EveryRun | internal/dashboard/workers.go:24-58 | in every reachable state accepted jobs are queued, running or finished exactly once, and the queue fits its capacity |
| Workers.RecordAddsOne | internal/dashboard/memstore.go:152-188 | recording adds one scan and one snapshot to that cluster and to no other |
| Workers.JobIsAudited | internal/dashboard/api.go:348-362 | a finished job leaves one entry, allowed exactly when its scan was stored |
| Workers.JobIsStored | internal/dashboard/api.go:357-360 | storing a job's report makes it its cluster's answer under the job's scan id, and seeding tracks its findings |
| Workers.CloseDrains | internal/dashboard/workers.go:52-58 | once close has returned every accepted job is finished and audited once, after at most three scanner calls, with one scan and one snapshot per success |
| Workers.CloseTerminates | internal/dashboard/workers.go:52-58 | after closing, at most a computed number of steps other than requests happen, and until close returns another one is always possible |
| Workers.RankFalls | internal/dashboard/workers.go:24-58 | after closing, a request leaves the bound alone and every other step lowers it |
| Workers.RefusedOnlyWhenFull | internal/dashboard/workers.go:42-49 | before closing, a job is refused only when the queue is full, and refusing changes nothing |
| Workers.PanicsExactly | internal/dashboard/workers.go:42-58 | in every run a step panics if and only if it reads the pool after close returned, or sends after close was entered; a panic loses no accepted job |
| Workers.PanicsAfterReturn | internal/dashboard/api.go:311-316 | a run in which two requests that saw the pool panic after close has returned, one in each way |
| Workers.ClosedIff | internal/dashboard/workers.go:52-58 | the pool is closed, or gone, exactly when close was entered, or has returned, earlier in the run |

## Left out

- Decoding of resource manifests (internal/graph/normalize.go) and graph building: the model starts from typed objects; `ChainSoundness.ShapedByBuild` states the one fact about building the proofs need.
- Checks KG-003 to KG-007, KG-009, KG-010, KG-012, KG-016 and KG-019 to KG-022: they enter `Checks.Scan` as arbitrary findings, labelled with their own id where a theorem needs it.
- Titles of findings, narratives, summaries, technique lists, remediation texts and evidence details beyond one string.
- Unicode case mapping: upper case is ASCII plus dotless i and long s, the only other letters that can reach a capability name.
- UTF-8 decoding of the byte stream: chunks are decoded text, so a chunk border inside a character is not modelled.
- IEEE floating point: rates and hours are exact reals.
- Merge.MergeReports: builds its result from values; what sharing the stored breach lists does to results already returned is proved separately in `Slices`, and data races on the shared array are not modelled. Counts are naturals; with negative counts, which the engine never produces, associativity fails.
- LifecycleRuns.EveryRun: takes each handler and each finished scan as one atomic step; `Interleaving` splits the handlers and erasures, and `Isolation.OrphanedRows` shows what an interleaving inside a scan can do.
- LifecycleRuns.FirstSeenFixed: holds for atomic handlers; `Interleaving.FirstSeenExact` gives the exact condition when they interleave.
- Interleaving.FirstSeenOverRuns: states a sufficient condition over runs; the exact one is per step.
- Broker.EveryRun: models the broker as a step system on values, without a class; the writer preference of Go's read-write lock is not modelled, so the theorem covers more interleavings than the code has.
- Workers.EveryRun: models the pool as a step system on values, without a class; scans the API runs inline once the pool is gone, and a second close, are outside it.
- HTTP routing, decoding, authentication, role checks, rate limits, metrics, tracing and webhooks around the handlers.
- The Postgres store, file history, loaders, command line, policies in CEL, JWT handling, report rendering, hardening templates, cron schedules and the user interface.
- Embedded compliance packs and coverage counting: packs and coverage are parameters of `Analyzer.Analyze`.
- Splitting of findings into blocking and waived ones (internal/dashboard/lifecycle_api.go:264): a one-loop filter over `TriageLane.WaivedKeys`.
