# Survivability model

kubectl-survive answers one question about a Kubernetes cluster: if a failure domain (a zone, a
rack) is lost, which workloads stop serving, and which change to a workload would prevent that?
This project models the logic behind the answer and proves what the answer means. To verify it:

    dafny verify dfyconfig.toml

## The chain

| module | models |
|---|---|
| `Basics`, `Cluster` | sorting, lookup maps, string order; the cluster objects, reduced to the fields the program reads |
| `Domain`, `Workload`, `WorkloadFacts` | which failure domain a node is in, which workload a pod belongs to and how many replicas it declares |
| `VolumePin`, `Spread`, `PdbCheck`, `PdbFacts` | volumes that tie a pod to a domain, topology spread, disruption budgets |
| `Match`, `HostRegex` | Service names in environment values, and the host patterns as regular expressions |
| `DepGraph`, `DepGraphFacts`, `Propagate` | the dependency graph and impairment |
| `Survive`, `SurviveFacts`, `VerdictFacts` | the survivability report and its closed form |
| `Sched`, `SchedFacts`, `SpreadPlacement` | simulated placement on a scheduler cache that is put back, and what enforced spread implies |
| `Ladder`, `LadderFacts`, `Verify`, `VerifyFacts` | the ladder of fixes and the two proofs each must pass |
| `RungFacts`, `AntiAffinityFacts` | what rungs 1, 4 and 7 deliver under plugins that honour what they write |
| `Rank`, `RankFacts`, `AnswerFacts` | the whole fix command: who gets an answer, to what question, and what FIX and ALT mean |
| `DrainCheck`, `DrainProbe` | the drain-deadlock check, and whether its budget covers the replica it probes |
| `DrainRun`, `DrainFacts`, `DrainExamples` | a drain as a state machine, and the checks judged by it |
| `Exporter`, `ExporterFacts`, `GaugeFacts` | the metrics exporter over any sequence of cycles, and what its gauges mean |

Code that works step by step is a method with loops or a class whose methods change its fields:
the scheduler cache and view, the shared visited set of the graph search, a pod template changed
in place, the exporter's gauges. Each is proved against a function or relation on values, and the
`...Facts` modules prove what that function or relation means for an operator, down to the objects
of the cluster.

The scheduler's PreFilter and Filter plugins are a parameter (`Plugins`), as is the host part of
a URL. Nothing is assumed about the plugins except where a lemma says so: that they honour a pod's
own spread constraints (`SpreadPlacement.HonoursSpread`) or required anti-affinity terms
(`AntiAffinityFacts.HonoursAntiAffinity`), read off the topology label itself. `CapacitySpread` and
`KeepApart` are concrete plugins that do. Node names are taken to be unique and non-empty, as the
API server guarantees.

## What the proofs found

* A withdrawal that fails half-way is not undone: the restoring step is registered only after the
  withdrawal returns (`internal/sched/place.go:115-119`). `Sched.Scheduler.PlaceReplacing` states
  exactly when the cache is restored; on a scheduler built from the snapshot it always is.
* The survivability proof says nothing for a workload whose synthetic replicas the engine does not
  group back: an empty kind, or a ReplicaSet whose name is the UID of a ReplicaSet that is another
  one or is controlled by a Deployment; `VerifyFacts.SyntheticRef` has exactly these, and
  `VerifyFacts.UnresolvedIsVacuous` the consequence. The fix command only reads templates of
  Deployments and StatefulSets, for which this cannot happen (`RankFacts.ReadableResolves`).
* The comment in `Classify` that the verdict does not depend on the order of the constraints holds
  iff the tightest ones earn the same verdict; a tie of which one sets `minDomains` breaks it.
* `Classify` also says that `minDomains` forces a spread when the cluster has that many domains. The
  scheduler then ignores it, so with a maxSkew of at least the replicas every replica may share a
  domain (`Spread.MetMinimumForcesNothing`); these are exactly the cases in which "enforced" is
  reported wrongly (`Spread.ClassifyExact`).
* pdbcheck and the engine agree on a budget except when both of its fields are set: pdbcheck then
  also looks at `maxUnavailable`, the engine never does (`PdbCheck.BudgetAgreement` has the exact
  condition, `DrainExamples.BothFieldsDisagree` a budget).
* A drain finding says that the budget refuses every later eviction. That is so iff the budget
  cannot spare a second pod of the domain (`DrainFacts.FindingExactly`);
  `DrainExamples.TolerantBudgetGoesOn` is a listed finding whose budget can.
* The drain check looks the budget up by the first replica in snapshot order but probes the first by
  name. The budget covers the probe iff the probe's own lookup finds it (`DrainProbe.CoversProbe`);
  `DrainProbe.ProbeUncovered` is a case where it does not, and then the eviction costs the budget
  nothing (`DrainFacts.UncoveredProbe`).
* A volume reported as pinned through the deprecated zone label can be reached from another domain
  by a node whose two zone labels disagree. Where terms have one expression on a zone label each,
  the pin holds for every node iff the terms that can select any use the stable label
  (`VolumePin.ZonePinExact`).
* Rung 1 writes the topology label itself, the report also reads the deprecated one. Rung 1 keeps its
  promise iff the label itself has two values (`RungFacts.RungOneSurvives`); in a cluster half-way
  through the change of labels the report counts two domains and rung 1 uses one
  (`RungFacts.HalfMigratedRungOneFails`). It also needs a selector that matches the template's labels
  (`RungFacts.UnselectedRungOneFails`).
* Rung 7 keeps its promise where every node carries the label; a required term does not bind on a node
  without it (`AntiAffinityFacts.UncarriedRungSevenFails`).
* The budget gauge is described as "can never permit an eviction" but has a series for every block.
  For a budget whose pods are placed the description holds iff its fields forbid every eviction, or
  the block is neither a stale status nor an overlap (`GaugeFacts.BudgetGaugeMeans`): a budget that
  covers nothing is no exception; a stale one, whose pods can go once its status is current, is
  (`DrainExamples.StaleBudgetEvicts`).
* The impaired gauge is described for workloads that survive. That holds iff the workload depends on
  no failure, or is neither degraded nor unknown (`GaugeFacts.ImpairedGaugeMeans`);
  `GaugeFacts.UnknownServedImpaired` is an unknown workload whose series is 1.
* The exporter's `workload` label is namespace/name: two workloads of different kinds and one name
  share a series and the later one decides.

## Model

The table has the results and the operations they are about. Smaller steps (setters, constructors,
single loops) carry contracts too and are not listed.

| member | source | states |
|---|---|---|
| `Cluster.PodLifecycle` | internal/health/health.go:11-40 | available is running, ready and not being deleted; finished pods neither occupy a node nor count for budgets, waiting ones do not count, those of unknown phase do both but serve nobody |
| `Cluster.SelectorLaws` | internal/pdbcheck/pdbcheck.go:71-80 | a selector matches iff it parsed, its entries are among the labels' and all its requirements hold |
| `Cluster.RequirementLaws` | internal/pdbcheck/pdbcheck.go:71-80 | In is a choice of entries, Exists of any, and NotIn and DoesNotExist are their negations, so they hold where the key is missing |
| `Cluster.KeysQualify` | internal/workload/owner.go:20 | every key reads back: the namespace up to the first slash, the name after it |
| `Domain.DomainsMembers` | internal/domain/domain.go:39-54 | the domains of a cluster are exactly the answers some node gives |
| `Domain.OfMeans` | internal/domain/domain.go:24-34 | a node's domain is the non-empty value of the key, or for topology.kubernetes.io/zone, where that is missing, of failure-domain.beta.kubernetes.io/zone |
| `Domain.BucketIs` | internal/domain/domain.go:39-54 | a bucket has the name of each node with that answer, once per node and in snapshot order |
| `Domain.Group` | internal/domain/domain.go:39-54 | one sorted bucket per domain, holding exactly the names of that domain's nodes with multiplicity; every other node is listed as unlabelled, sorted |
| `Domain.NodeDomains` | internal/survive/engine.go:30-35 | the lookup built from the buckets names a domain for exactly the labelled nodes, and the right one |
| `Domain.DomainOfNameHit` | internal/domain/domain.go:24-34 | with unique names, looking a node up by name gives that node's own domain |
| `Domain.ValuesAreDomains` | internal/domain/domain.go:24-34 | every value of the key's own label is a domain; the deprecated label can only add to them |
| `Domain.NameInBucket` | internal/domain/domain.go:39-54 | a name that resolves to a domain is in that domain's bucket |
| `Workload.ControllerFirst` | internal/workload/owner.go:48-56 | the owner that counts is the first one marked as controller; there is none iff no reference is marked |
| `WorkloadFacts.GroupedUnder` | internal/workload/owner.go:60-76 | whose pod it is, on the cluster's objects and kind by kind: a Deployment's through a ReplicaSet it controls or directly, a ReplicaSet's when no Deployment controls it or it is gone, any other controller's directly, a bare pod's own |
| `WorkloadFacts.DeploymentMembers` | internal/survive/engine.go:37-55 | a Deployment's available pods are those controlled by a ReplicaSet of its namespace that it controls, and those it controls itself, no others |
| `WorkloadFacts.StatefulSetMembers` | internal/survive/engine.go:37-55 | a StatefulSet's available pods are those of its namespace that it controls |
| `WorkloadFacts.MembersSelected` | internal/survive/engine.go:37-55 | a workload's pods are the snapshot's available pods grouped under it, none twice and in its order |
| `WorkloadFacts.ReplicasMean` | internal/survive/engine.go:82-85 | the count a budget is resolved against is the one the Deployment or StatefulSet of that name declares, and the available pods where none does |
| `Workload.RefOrder` | internal/survive/engine.go:67 | ordering workloads by namespace/name is total and transitive, so sorting by it is well defined |
| `VolumePin.SingleDomainOf` | internal/volumepin/volumepin.go:59-95 | a domain is returned only if there are terms and every term ends up naming that one domain; nothing is returned only if no domain has this property |
| `VolumePin.PinnedDomain` | internal/volumepin/volumepin.go:59-95 | at most one domain can be named by all terms, and it is the answer exactly when there is one |
| `VolumePin.TermMeans` | internal/volumepin/volumepin.go:75-82 | what a term names is the value of its last single-valued In expression on the key or, for the stable zone key, the deprecated one |
| `VolumePin.TermDomainSound` | internal/volumepin/volumepin.go:76-82 | a node that satisfies every expression of a term is in the domain the term names; for the zone key, if its two zone labels agree |
| `VolumePin.PinSound` | internal/volumepin/volumepin.go:55-58 | a volume reported as pinned to d is reachable, through any of its alternative terms, only from nodes of d; for the zone key, among nodes whose two zone labels agree |
| `VolumePin.DisagreeingLabelsEscape` | internal/volumepin/volumepin.go:68-71 | the agreement is needed: a node labelled b by the stable and a by the deprecated key reaches a volume reported as pinned to a |
| `VolumePin.ZonePinExact` | internal/volumepin/volumepin.go:59-95 | exactly when a zone pin holds for every node: among volumes whose terms have one expression on a zone label each (and any others on other keys), every node that reaches the volume is in d iff the terms whose other expressions can be satisfied together use the stable label |
| `VolumePin.PlainComplete` | internal/volumepin/volumepin.go:83-92 | for terms that list the allowed values of the key, each once, a volume not reported as pinned is reachable from two different domains |
| `VolumePin.ForPod` | internal/volumepin/volumepin.go:21-49 | one pin, in claim order, per claim that leads through a known claim and volume to a pinned volume |
| `VolumePin.PinsMean` | internal/volumepin/volumepin.go:21-49 | the pins are exactly those of the claims of that namespace and name that are bound to a volume all of whose terms name one domain, with the names of claim and volume (distinct names, no slash in a namespace) |
| `VolumePin.PinnedIff` | internal/volumepin/volumepin.go:21-49 | a pod is pinned to d iff it mounts such a volume of d |
| `VolumePin.PinnedPodStays` | internal/volumepin/volumepin.go:20-49 | a pod reported as pinned to d mounts a volume that only nodes of d can reach; for the zone key, among nodes whose two zone labels agree |
| `Spread.Classify` | internal/spread/spread.go:35-77 | the loop and switch compute the verdict of the tightest DoNotSchedule constraint on the key, or advisory, or absent |
| `Spread.TightestBinds` | internal/spread/spread.go:36-49 | the constraint that decides is a binding one of least maxSkew; there is none iff no constraint binds |
| `Spread.LiveSkew` | internal/spread/spread.go:85-103 | the result is the widest gap between two domains' counts, an absent domain counting zero, and some pair of domains shows it; 0 without domains |
| `Spread.SkewUnique` | internal/spread/spread.go:79-85 | that property has one solution |
| `Spread.TightSkewSpreads` | internal/spread/spread.go:65-69 | a placement within a skew bound below the replica count leaves a replica outside every domain |
| `Spread.EvenSpread` | internal/spread/spread.go:85-103 | within skew 1, every domain holds the average rounded down or up |
| `Spread.WeakWitness` | internal/spread/spread.go:65-67 | when no binding constraint has a maxSkew below the replica count, there is a placement honouring all of them, minDomains included, with all replicas in one domain |
| `Spread.ClassifyExact` | internal/spread/spread.go:35-69 | "enforced" is reported iff every placement of the replicas that the scheduler admits, minDomains included, leaves a replica outside each domain, exactly unless the verdict rests on minDomains alone (two or more domains) |
| `Spread.ForcedExactly` | internal/spread/spread.go:45-49 | every admitted placement spreads iff some binding constraint has a maxSkew below the replica count |
| `Spread.MetMinimumForcesNothing` | internal/spread/spread.go:61-64 | the minDomains claim is false: maxSkew 3 and minDomains 2 over three domains are reported as enforced, and all three replicas may share one |
| `Spread.StatesMean` | internal/spread/spread.go:51-77 | weak and enforced verdicts have a DoNotSchedule constraint on the key, an advisory one only ScheduleAnyway ones, an absent one none; one domain is always weak |
| `Spread.AntiAffinityMeans` | internal/spread/affinity.go:12-29 | enforced iff a required term is on the key, else advisory iff a preferred one is, else absent |
| `Spread.OrderIndependence` | internal/spread/spread.go:42-44 | the verdict is the same for every order of the list iff all the tightest constraints earn the same verdict; without minDomains they do |
| `Spread.MinDomainsTieDependsOnOrder` | internal/spread/spread.go:61-64 | with two equally tight constraints of which one sets minDomains, the order of the list changes the verdict |
| `PdbCheck.CeilPercent` | internal/pdbcheck/pdbcheck.go:34-45 | a percentage resolves to the least integer not below it |
| `PdbCheck.Count` | internal/pdbcheck/pdbcheck.go:63-88 | the counting pass: the pods recorded under every budget key, and how often every pod name was selected, over all parseable budgets |
| `PdbCheck.AnyPodHasMultiplePDBs` | internal/pdbcheck/pdbcheck.go:126-133 | true iff some pod's name was counted more than once |
| `PdbCheck.Judge` | internal/pdbcheck/pdbcheck.go:96-120 | the switch on one budget, in its order of precedence |
| `PdbCheck.Analyze` | internal/pdbcheck/pdbcheck.go:60-124 | one finding per budget, in order, with the budget's name and the block its matched pods, overlaps, freshness and fields call for |
| `PdbCheck.ParseableNeverUnreadable` | internal/pdbcheck/pdbcheck.go:143-151 | the engine's question fails only on an unparseable selector |
| `PdbCheck.MatchedUnique` | internal/pdbcheck/pdbcheck.go:71-85 | under unique budget names, the pods recorded for a budget are exactly those it covers |
| `PdbCheck.SelectionsAtLeast` | internal/pdbcheck/pdbcheck.go:61-65 | two budgets covering one pod are always seen as an overlap |
| `PdbCheck.LoneBlock` | internal/pdbcheck/pdbcheck.go:96-120 | for a budget alone that covers each of the pods under a name of its own, only freshness and fields decide the block |
| `PdbFacts.BlockMeans` | internal/pdbcheck/pdbcheck.go:60-124 | the block on the cluster's objects, in order of precedence: covers no pod; shares a covered pod with another budget; status behind; its fields ask for all covered pods or let none be away; none of these (distinct names) |
| `PdbFacts.SelectionsExact` | internal/pdbcheck/pdbcheck.go:61-88 | a pod counts as selected twice iff two budgets cover it |
| `PdbFacts.ForbidsMeans` | internal/pdbcheck/pdbcheck.go:111-119 | numbers as they are and percentages rounded up: every eviction is forbidden iff minAvailable comes to all pods or maxUnavailable to none; a malformed field counts as unset |
| `PdbFacts.DemandMeans` | internal/pdbcheck/pdbcheck.go:143-169 | what one budget tells the engine: nothing from another namespace or for an unselected pod, unreadable if its selector does not parse, minAvailable when set (malformed: none), else all but a non-negative maxUnavailable |
| `PdbFacts.FirstSpeaks` | internal/pdbcheck/pdbcheck.go:143-169 | the first budget that says anything is the one heard |
| `PdbCheck.OnlyOneSpeaks` | internal/pdbcheck/pdbcheck.go:143-169 | when a single budget has something to say about a pod, its answer is the engine's |
| `PdbCheck.BudgetAgreement` | internal/pdbcheck/pdbcheck.go:111-119 | for a fresh budget over n >= 1 pods, none covered twice, the drain check says "never satisfiable" iff the number the engine would keep, asked about any of those pods, is all n, or both fields are set and the one the engine ignores resolves to zero |
| `DrainExamples.BothFieldsDisagree` | internal/pdbcheck/pdbcheck.go:111-119 | minAvailable 0 with maxUnavailable 0 over one pod: the check says never, the engine would keep nothing |
| `PdbCheck.PercentForms` | internal/pdbcheck/pdbcheck.go:34-58 | minAvailable p% forbids every eviction among n iff p*n > 100*(n-1); maxUnavailable p% iff p*n rounds up to zero, for p >= 0 iff p is 0 |
| `Match.JoinSplit` | internal/depgraph/match.go:63 | splitting loses nothing: the parts are separator-free and join back to the string |
| `Match.SplitJoin` | internal/depgraph/match.go:63 | splitting undoes joining separator-free parts |
| `Match.RenderMatches` | internal/depgraph/match.go:56-60 | every rendered name of an existing Service (svc:port in its own namespace; svc.ns, svc.ns.svc and svc.ns.svc.suffix from any, each with or without a port) matches exactly that Service |
| `Match.MatchIsRendering` | internal/depgraph/match.go:62-95 | a value without a scheme that matches is one of the rendered names of the Service it matches |
| `Match.MatchExact` | internal/depgraph/match.go:25-95 | a value without a scheme matches a Service iff the Service exists and the value is one of its well-formed rendered names |
| `Match.BareWordNeverMatches` | internal/depgraph/match.go:59-69 | a single label alone never matches, whatever Services exist |
| `Match.MatchUrlExact` | internal/depgraph/match.go:27-43 | a value with a scheme matches a Service iff it is not padded, the Service exists, and the host of the URL spells one of its names (a final dot allowed), the short name only in its own namespace |
| `Match.HostExact` | internal/depgraph/match.go:62-84 | a host leads to a Service iff it spells a form of its name with dot-free parts; the short form needs a certain host and the same namespace |
| `HostRegex.LabelMatches` | internal/depgraph/match.go:9-15 | the label recogniser accepts exactly the strings of the hostLabel pattern |
| `HostRegex.HostnameMatches` | internal/depgraph/match.go:9-15 | the hostname recogniser accepts exactly the strings of hostnameRe |
| `HostRegex.HostPortMatches` | internal/depgraph/match.go:9-15 | the host-and-port recogniser accepts exactly the strings of hostPortRe, and returns what the pattern's first group captures |
| `Match.MatchExists` | internal/depgraph/match.go:62-95 | whatever the value, URLs included, a returned key names an existing Service |
| `DepGraph.BuildBackers` | internal/depgraph/build.go:32-63 | for every Service, the workloads recorded are the owners of the pods its EndpointSlices target |
| `DepGraph.BackingMembers` | internal/depgraph/build.go:32-55 | a workload backs a Service iff an endpoint of one of the Service's slices targets one of its pods |
| `DepGraphFacts.BackingMeans` | internal/depgraph/build.go:32-63 | a workload backs a Service iff one of the Service's EndpointSlices has a Pod target of that namespace and name which is one of the workload's pods |
| `DepGraphFacts.KindMeans` | internal/depgraph/build.go:149-164 | ExternalName Services are external; others are resolved if some workload backs them, else unresolved with a selector and unattributable without |
| `DepGraphFacts.NamesMeans` | internal/depgraph/build.go:72-88 | a pod names a Service iff a non-empty literal value of one of its containers, init containers included, matches it |
| `DepGraph.DeclaredMembers` | internal/depgraph/build.go:72-88 | the Services collected for a workload are exactly those a non-empty literal value of one of its pods names |
| `DepGraph.MakeEdge` | internal/depgraph/build.go:95-110 | an edge carries the sorted backers and kind its Service calls for; an ExternalName Service keeps none |
| `DepGraph.BackersIffResolved` | internal/depgraph/build.go:149-164 | an edge has backers iff it is resolved |
| `DepGraph.Visit` | internal/depgraph/build.go:85-112 | one env value: a (workload, Service) pair met for the first time adds one edge to the list and the index, any other value changes nothing |
| `DepGraph.Collect` | internal/depgraph/build.go:71-115 | after all pods the pairs met are exactly those some pod declares, with list and index in step |
| `DepGraph.SortedUnique` | internal/depgraph/build.go:117-127 | two sorted lists with the same elements of which no two tie are equal, so index and list agree in order too |
| `DepGraph.Build` | internal/depgraph/build.go:17-130 | no (workload, Service) pair repeats; an edge exists iff a literal value of a pod grouped under the workload matches the Service; every edge has the right kind and backers; the index of a workload holds exactly its edges of the list |
| `Propagate.Dfs` | internal/depgraph/propagate.go:55-85 | found: the chain extends the path by a real witness of workloads not visited before; not found: everything visited and off the stack is clear, although the visited set is shared between siblings and a workload on the stack answers no; it terminates on cyclic graphs |
| `Propagate.Search` | internal/depgraph/propagate.go:44 | one fresh search finds something iff a path of resolved edges leads from the workload to a failed one or to the owner of an unresolved edge |
| `Propagate.SweptIsSafe` | internal/depgraph/propagate.go:55-58 | no path out of a visited, clear region reaches a failure |
| `Propagate.WitnessFails` | internal/depgraph/propagate.go:60-76 | a chain proves that its workload can fail |
| `Propagate.ChainBounded` | internal/depgraph/propagate.go:60-76 | a chain has at most one element more than there are workloads with dependencies |
| `Propagate.CanFailStep` | internal/depgraph/propagate.go:62-82 | the one-step reading of failing: an unresolved edge, or a backer that failed or can fail |
| `Propagate.FailMonotone` | internal/depgraph/propagate.go:25-26 | more failures never clear a workload |
| `Propagate.Impaired` | internal/depgraph/propagate.go:32-49 | exactly the workloads with edges, not lost themselves, that can fail are reported: once each, in name order, each with a chain that starts there, follows resolved edges through workloads that have not failed, repeats none and ends at a failure |
| `Survive.GroupPods` | internal/survive/engine.go:37-55 | a workload is grouped iff it has an available pod, with all its available pods in order and their count per domain |
| `Survive.CollectPins` | internal/survive/engine.go:105-115 | the pins of all replicas, each volume and domain once, in order of first appearance |
| `VerdictFacts.CollectedPins` | internal/survive/engine.go:105-115 | a verdict's pins: every pin of every replica is represented, by its volume and domain, exactly once, and nothing else is there |
| `VerdictFacts.PinnedMeans` | internal/survive/engine.go:105-115 | a workload counts as pinned iff one of its replicas mounts a volume that some domain has to itself |
| `Survive.CountStranded` | internal/survive/engine.go:125-136 | counts the replicas that run outside the domain but have a volume pinned to it |
| `Survive.Judge` | internal/survive/engine.go:78-193 | one verdict: outcome after the pin override, placement, spread and anti-affinity state, pins |
| `VerdictFacts.VerdictProtection` | internal/survive/engine.go:80-104 | a verdict's spread state is judged for the replicas the workload is meant to have over the domains of the cluster, by its first available pod, whose anti-affinity state it carries too; its placement counts the replicas per domain |
| `Survive.AnalyzeDomain` | internal/survive/engine.go:76-214 | one verdict per workload in order, totals that count each lost and each degraded verdict once, and the impairments of the graph for this domain's failures |
| `Survive.Analyze` | internal/survive/engine.go:25-216 | the report: every domain once in name order, in each the same workloads once in name order, every budget's finding by name, exactly the unlabelled nodes |
| `SurviveFacts.Counts` | internal/survive/engine.go:80 | the subtraction that gives the survivors counts the replicas outside the domain |
| `SurviveFacts.ClosedForm` | internal/survive/engine.go:125-190 | lost iff every available replica runs in the domain or is pinned to it; otherwise unknown iff one is on an unlabelled node or the budget is unreadable; otherwise degraded iff fewer replicas run outside than the budget keeps |
| `SurviveFacts.SurvivesMeans` | internal/survive/engine.go:162-165 | a clean verdict implies every replica is on a labelled node and one of them, not pinned to the domain, is outside |
| `SurviveFacts.LostOnce` | internal/survive/engine.go:146-148 | without pins a workload is lost in at most one domain |
| `SurviveFacts.ReportComplete` | internal/survive/engine.go:76-193 | every workload with an available pod has exactly one verdict in every domain, with the counted outcome, and the totals are the numbers of lost and degraded verdicts |
| `SurviveFacts.VerdictOwner` | internal/survive/engine.go:37-55 | a verdict is always about a workload with an available pod |
| `SurviveFacts.GraphMeaning` | internal/depgraph/build.go:17-130 | the search's edges, read off the snapshot: using, dangling and having edges are what env values and EndpointSlices say, in whatever order ties were sorted |
| `SurviveFacts.VerdictIs` | internal/survive/engine.go:76-193 | the report gives a workload an outcome in a domain iff counting its available pods does |
| `SurviveFacts.ImpairedIs` | internal/survive/engine.go:195-211 | a workload is impaired in a domain iff it has edges, is not lost there and can reach a lost or unknown workload or an unresolved Service |
| `SurviveFacts.ImpairedMeans` | internal/survive/engine.go:195-211 | the same without the graph: a workload is impaired without a domain iff it is not lost there and a chain of Services named in environment values leads from it to a workload whose Service nobody backs, or in one step or more to one that is lost or unknown there |
| `SurviveFacts.BudgetsNeverDecide` | internal/survive/engine.go:138-181 | two snapshots that differ only in readable budgets agree on which outcomes are lost and unknown |
| `SurviveFacts.BudgetsNeverDecideReport` | internal/survive/engine.go:138-211 | and their reports agree, domain by domain, on who is lost, unknown and impaired |
| `Sched.RemovableIff` | internal/sched/place.go:166-180 | withdrawing succeeds exactly for pods with distinct UIDs that are all in the cache |
| `Sched.AddableIff` | internal/sched/place.go:184-194 | adding succeeds exactly for pods with distinct UIDs that are not in the cache |
| `Sched.PutBack` | internal/sched/place.go:182-194 | what was withdrawn can be added again, and that restores the cache iff it held those very pods |
| `Sched.LeftIsBase` | internal/sched/place.go:114-127 | a run leaves the cache as it was iff the cache held the very pods withdrawn, or the withdrawal failed on its first pod |
| `Sched.FailedWithdrawal` | internal/sched/place.go:171-175 | a withdrawal that fails leaves the cache unchanged iff it fails on its first pod |
| `Sched.Scheduler.New` | internal/sched/framework.go:51-102 | fails iff two assigned pods share a UID; otherwise cache and view hold exactly the assigned pods |
| `Sched.Scheduler.Fits` | internal/sched/fits.go:26-55 | an answer iff the pod is unassigned and passes PreFilter; one entry per node in order with its domain, the Filter verdict and, when refused, the message |
| `Sched.Scheduler.Place` | internal/sched/place.go:39-96 | cache and view end as they began, whatever happens; an answer iff the count is positive, the pod unassigned and no replica errs, and then the answer of placing each replica first-fit in the view that holds the earlier ones |
| `Sched.Scheduler.PlaceAll` | internal/sched/place.go:61-95 | the placing loop: the cache grows by exactly the simulated pods, and the answer so far is that of the replicas so far |
| `Sched.Scheduler.FirstFit` | internal/sched/place.go:225-238 | the first accepted node; when there is none, the first non-empty message or the default |
| `Sched.Scheduler.Withdraw` | internal/sched/place.go:198-208 | removing the simulated pods last to first succeeds and restores the cache they were added to |
| `Sched.Scheduler.WithdrawExisting` | internal/sched/place.go:166-180 | succeeds iff every assigned pod can be removed in turn and then returns exactly those; on failure the pods before the failing one stay out of the cache and the view is not refreshed |
| `Sched.Scheduler.PlaceReplacing` | internal/sched/place.go:114-127 | the answer of placing with the assigned old pods out of the view; afterwards they are back in cache and view, or, after a failed withdrawal, the pods before the failing one are out of the cache; the cache ends as it began iff it held those very pods, or the withdrawal failed on its first |
| `Sched.Scheduler.FitsReplacing` | internal/sched/place.go:148-161 | the per-node answers with the assigned old pods out of the view; the same rollback, Fits errors included |
| `SchedFacts.Accounting` | internal/sched/place.go:70-94 | placed plus unschedulable is the number asked for; there is a reason iff something was unschedulable |
| `SchedFacts.FirstMessageMeans` | internal/sched/place.go:225-238 | a refused replica gets the first node's message that says anything, or the fixed text when none does |
| `SchedFacts.ReasonMeans` | internal/sched/place.go:70-77 | the reason of a placement is that of its first refused replica |
| `SchedFacts.DomainCounts` | internal/sched/place.go:90-93 | a domain's count is the number of chosen nodes in it; unlabelled nodes count nowhere |
| `SchedFacts.PrefixLaw` | internal/sched/place.go:61-95 | the nodes chosen for fewer replicas are a prefix of those chosen for more |
| `SchedFacts.RefusalSticks` | internal/sched/place.go:61-95 | if the plugins ignore the candidate's name and UID, after one refusal every later replica is refused |
| `SchedFacts.FirstNodeMeans` | internal/sched/place.go:225-238 | the chosen node is accepted and no node before it is |
| `SchedFacts.NoneMeans` | internal/sched/place.go:225-238 | no node is chosen iff none is accepted |
| `SchedFacts.EveryReplicaAccepted` | internal/sched/place.go:61-95 | when all were placed, replica k sits on the k-th node of the answer, the first one accepted in the view that holds the replicas before it |
| `SchedFacts.CopiesDiffer` | internal/sched/place.go:213-220 | a simulated copy differs from its pod in name, UID and node alone, a placed one from the copy in node and phase alone |
| `SchedFacts.SimUidInjective` | internal/sched/place.go:210-216 | no two simulated copies share a UID |
| `SchedFacts.ViewKeeps` | internal/sched/place.go:79-88 | a pod seen at the start is seen unchanged throughout |
| `SchedFacts.ViewHolds` | internal/sched/place.go:79-88 | a placed replica is seen by every later one, bound to its node |
| `SchedFacts.ViewOnly` | internal/sched/place.go:79-88 | nothing else is seen |
| `SchedFacts.SnapshotRollsBack` | internal/sched/place.go:111-127 | on a scheduler built from the snapshot, withdrawing any selection of its pods succeeds and is undone exactly |
| `SchedFacts.HalfWithdrawalSticks` | internal/sched/place.go:115-119 | rollback is not unconditional: with the second of two pods missing, the first stays out of the cache |
| `SpreadPlacement.SkewKept` | internal/sched/place.go:62-95 | if the plugins admit a node only where it carries the topology label and count + 1 - minimum stays within k, every step keeps all values of the label within k of each other and the tally equals what the plugins count |
| `SpreadPlacement.HonouredIsEnforced` | internal/fix/ladder.go:167-174 | plugins that honour every pod's own DoNotSchedule constraints, reading the topology label itself, enforce each one in the simulation of a pod its selector matches; and the simulated replicas are counted iff it does |
| `SpreadPlacement.LiveSkewBounded` | internal/spread/spread.go:85-103 | then the live skew over the values of the label is at most k |
| `SpreadPlacement.TotalPlaced` | internal/sched/place.go:90-93 | then every placed replica is counted under some value of the label |
| `SpreadPlacement.SpreadImpliesSurvival` | internal/fix/ladder.go:134-177 | then, with all replicas placed, more of them than k and two values, no value has them all |
| `SpreadPlacement.EvenShares` | internal/fix/ladder.go:167-172 | under maxSkew 1 each value of the label has its even share of the replicas, rounded down or up |
| `SpreadPlacement.CapacitySpreadHonours` | internal/sched/fits.go:26-55 | a scheduler with node capacity and the pod's own spread constraints, read off the topology label itself, honours them and looks at no name or UID, so the hypotheses can be met |
| `SpreadPlacement.EmptyClusterSchedules` | internal/sched/place.go:61-95 | and on an empty cluster with room it places every replica of a pod with one such constraint |
| `SpreadPlacement.EmptyClusterSurvives` | internal/sched/place.go:26-35 | so there, more replicas than the maxSkew never share one domain, when the selector matches them |
| `SpreadPlacement.UncountedPilesUp` | internal/sched/place.go:61-95 | when the selector misses the pod, the same scheduler puts every replica on the first labelled node |
| `Sched.Scheduler.RemoveEach` | internal/sched/place.go:171-175 | removes pods until one is missing; says where it stopped and what is left |
| `Verify.BelongsIsRef` | internal/verify/verify.go:257-262 | a pod belongs to a workload for the proofs iff the engine groups it there |
| `VerifyFacts.SimulatedPod` | internal/verify/verify.go:76-95 | what is simulated, over the snapshot's nodes: a pod with the changed template's labels and whole spec, under the workload's name and in its namespace, or the default ones |
| `VerifyFacts.SyntheticServes` | internal/verify/verify.go:266-300 | a synthetic replica is running, ready, on its node, with the template's labels and the rest of its spec |
| `Verify.HypotheticalSnapshot` | internal/verify/verify.go:195-239 | the real cluster without the workload's pods and matching budgets, plus the placed replicas and the budget the rung calls for |
| `VerifyFacts.HypotheticalBudgets` | internal/verify/verify.go:210-233 | its budgets are those that do not select the workload's labels in its namespace, and its own: maxUnavailable 1 over its labels for rungs 5 and 6, else its present one |
| `VerifyFacts.HypotheticalRest` | internal/verify/verify.go:195-239 | its pods are those of the other workloads and the synthetic replicas; nothing else changes |
| `Verify.StillServes` | internal/verify/verify.go:168-186 | true iff no domain of the report calls the workload lost or unknown |
| `Verify.ClearsIsServing` | internal/verify/verify.go:165-186 | reading the report that way asks the engine's question of every domain of the cluster |
| `Verify.Verifier.Verify` | internal/verify/verify.go:60-121 | the proof is the one the plugins, the snapshot and the fix determine (nothing for an architectural finding, an error for a fix that changes nothing or a simulation that errs, not schedulable if a replica has no node); the scheduler ends as it began |
| `VerifyFacts.RungsAreObservable` | internal/verify/verify.go:67-74 | every rung but the architectural one is accepted for verification, the budget rungs although they change neither template nor count |
| `Verify.Verifier.Survivability` | internal/verify/verify.go:112-119 | proof 2 holds iff the hypothetical cluster clears the workload in every domain |
| `VerifyFacts.SyntheticRef` | internal/verify/verify.go:264-282 | the engine groups a synthetic replica back to its workload iff the kind is not empty and, for a ReplicaSet whose name is the UID of a ReplicaSet, that is the very one and no Deployment controls it |
| `VerifyFacts.HypotheticalMembers` | internal/verify/verify.go:188-208 | in the hypothetical cluster the workload's available pods are the placed replicas and no others if it resolves, and none otherwise |
| `VerifyFacts.ServingExactly` | internal/verify/verify.go:105-119 | a resolving workload passes proof 2 iff for every domain all replicas are on labelled nodes, the budget is readable, and one replica is outside and not pinned to it |
| `VerifyFacts.ServingIff` | internal/verify/verify.go:105-119 | proof 2 in closed form, for any placement in a cluster with a domain: the replicas are on labelled nodes, not all in one domain, no claim is pinned to a domain of the cluster, and the budget can be read |
| `VerifyFacts.UnhinderedWhenReadable` | internal/verify/verify.go:210-233 | when the budgets of the cluster and of the fix parse, the last condition always holds |
| `VerifyFacts.ProvenFix` | internal/verify/verify.go:60-121 | end to end: schedulable and surviving means all requested replicas were placed, each of them on the first node accepted in the view with the earlier ones, and for every domain one of them is on a labelled node outside it and not pinned to it |
| `VerifyFacts.StartView` | internal/verify/verify.go:84-91 | the simulation starts from exactly the other workloads' assigned pods, each as the snapshot has it |
| `RungFacts.StartsEmptyIff` | internal/verify/verify.go:84-91 | nothing a constraint counts carries the topology label at the start iff no such pod of another workload is on a node with the label |
| `VerifyFacts.UnresolvedIsVacuous` | internal/verify/verify.go:280-282 | a workload that does not resolve passes proof 2 whatever the placement |
| `VerifyFacts.ResolvingIsNeeded` | internal/verify/verify.go:280-282 | with every replica in one domain, proof 2 is refused iff the workload resolves |
| `RungFacts.EnforcedSpreadServes` | internal/fix/ladder.go:134-249 | a template whose tightest constraint is classified as enforced, placed in full by plugins that honour spread constraints, is cleared by the engine iff the key's own label has two values, no claim is pinned to a domain and the budget can be read (not enforced by minDomains alone, a selector that matches the template and no other pod in place) |
| `RungFacts.RungOneSurvives` | internal/fix/ladder.go:134-177 | rung 1, scheduled in full by plugins that honour spread constraints, passes both proofs iff the key's own label has two values, the claims pin the workload nowhere and its budget can be read (a selector that matches the template and no other pod in place) |
| `RungFacts.DesertedRungOne` | internal/fix/ladder.go:134-177 | the hypotheses can all be met: on a cluster empty but for the workload, with room, the fix is placed and passes under exactly those conditions |
| `RungFacts.HalfMigratedRungOneFails` | internal/fix/ladder.go:167-174 | two domains are not enough: with one node labelled by the stable and one by the deprecated key, rung 1 puts every replica on the first and proof 2 is refused, for every such workload |
| `RungFacts.RungFourExact` | internal/fix/ladder.go:251-273 | raising the replicas is offered iff every placement of the present ones leaves a domain empty, and proposes the least number for which some placement leaves none |
| `RungFacts.RungFourSurvives` | internal/fix/ladder.go:251-273 | rung 4, scheduled in full by plugins that honour one of the template's constraints, has placed a replica for each domain and passes both proofs iff the key's own label has two values and nothing else hinders it |
| `RungFacts.UnselectedRungOneFails` | internal/fix/ladder.go:134-177 | the selector is needed: when it misses the template's own labels, plugins that honour the added constraint put all replicas on one node, and proof 2 is refused |
| `VerifyFacts.BudgetRungsChangeNothing` | internal/verify/verify.go:210-233 | two fixes with the same template and placement get the same answer from the engine, whatever they do to the budget |
| `Rank.PdbsByWorkload` | internal/verify/analyze.go:138-163 | each workload is mapped to the first budget that selects one of its pods, and to none iff there is none |
| `Rank.Try` | internal/verify/analyze.go:90-104 | the candidate loop: architectural findings apart, errors noted, unschedulable fixes dropped, the rest kept with their proof; the scheduler ends as it began |
| `Rank.Rank` | internal/verify/analyze.go:80-113 | the answer to one failing workload: exactly the rungs that fire and schedule, with their proofs, fixes before alternatives and ascending rungs in each; the rungs that erred; the one architectural finding |
| `Rank.AnswerOne` | internal/verify/analyze.go:68-113 | a verdict without a readable template gets an empty answer, any other the ladder's |
| `Rank.AnswerDomain` | internal/verify/analyze.go:59-115 | one answer per lost or degraded verdict that was asked about, in order |
| `Rank.Analyze` | internal/verify/analyze.go:47-119 | fails iff the scheduler cannot be built; otherwise one block of answers per domain of the report |
| `RankFacts.AnswerDetermined` | internal/verify/analyze.go:42-46 | an answer depends on the plugins, the snapshot and the verdict alone, not on what was verified before or in which order |
| `RankFacts.RunDetermined` | internal/verify/analyze.go:42-46 | so does the list of all answers |
| `RankFacts.EveryFailureAnswered` | internal/verify/analyze.go:58-64 | every lost or degraded verdict that was asked about has its answer |
| `RankFacts.EveryAnswerCalledFor` | internal/verify/analyze.go:58-64 | no answer comes from anywhere else |
| `RankFacts.ReadableResolves` | internal/verify/analyze.go:165-185 | whatever has a readable template resolves, so the survivability proof of a printed fix is never empty |
| `RankFacts.ShownFixSurvives` | internal/verify/analyze.go:103-111 | a fix that is not partial: all replicas placed, each on its first accepted node, and whichever domain is lost, one of them is on a labelled node elsewhere, not pinned to it |
| `RankFacts.ShownFixIff` | internal/verify/analyze.go:103-111 | a shown fix is a full one iff its replicas are on labelled nodes, not all in one domain, its claims pin it nowhere and its budget can be read |
| `RankFacts.ShownAlternativeFails` | internal/verify/analyze.go:103-111 | a partial fix: all replicas placed, but the loss of some domain would not be withstood |
| `RankFacts.BudgetRungsMoveNothing` | internal/fix/ladder.go:295-298 | a budget rung is shown as a full fix iff rescheduling the unchanged workload would already make it survive |
| `RankFacts.LostIsAnswered` | internal/verify/analyze.go:47-119 | a workload all of whose replicas go with a domain gets an answer for that domain |
| `AnswerFacts.AnsweredExactly` | internal/verify/analyze.go:47-64 | a workload gets an answer for a domain iff counting its pods calls it lost or degraded there and it was asked about |
| `AnswerFacts.AnswerMeans` | internal/verify/analyze.go:66-113 | the answer is the ladder's to a question read off the object of that kind, namespace and name; without such an object it is empty |
| `AnswerFacts.QuestionMeans` | internal/verify/analyze.go:165-200 | the question: the object's template, declared count (unset: 0) and match labels or else its template's, its first budget, its first pod's anti-affinity, and whether a replica mounts a tied volume |
| `AnswerFacts.BudgetMeans` | internal/verify/analyze.go:138-163 | a workload's budget is the first in the snapshot that selects one of its pods |
| `AnswerFacts.SpreadRungsMean` | internal/fix/ladder.go:124-249 | rungs 1 to 3 fire only for workloads without a tied volume: no constraint on the key, two declared replicas and labels; a first constraint that is ScheduleAnyway; a first constraint of maxSkew over 1 |
| `AnswerFacts.OtherRungsMean` | internal/fix/ladder.go:251-527 | rung 4 fires on fewer declared replicas than domains, 5 when no budget reaches a workload of two replicas with labels, 6 when its current budget forbids every eviction of the declared count, 7 when pod and template only prefer anti-affinity on the key and no volume is tied, 8 when one is |
| `AnswerFacts.ShownCount` | internal/verify/verify.go:79-82 | a shown rung 4 has placed one replica for each domain, any other shown fix the declared count |
| `AnswerFacts.LostDeploymentAnswered` | internal/verify/analyze.go:47-119 | when a Deployment has available pods and all of them are gone with a domain, an answer for that domain names it and is the ladder's for its template |
| `Ladder.SpreadFor` | internal/fix/ladder.go:37-44 | the first constraint on the key, none iff there is none |
| `Ladder.PodTemplate.Mutate` | internal/fix/ladder.go:167-174 | the template changed in place is the mutation of the old one |
| `Ladder.PodTemplate.Promote` | internal/fix/ladder.go:475-490 | every preferred term on the key moves to the end of the required ones, the others stay preferred, in order |
| `Ladder.PodTemplate.Apply` | internal/fix/patch.go:62-68 | a fix is applied to a copy; the original is untouched |
| `Ladder.OthersUntouched` | internal/fix/ladder.go:195-238 | no mutation changes, drops or reorders a constraint on another key |
| `Ladder.SettledIsEnforced` | internal/spread/spread.go:55-69 | with the key's first constraint enforced at maxSkew 1, two replicas and two domains, the classifier says enforced |
| `Ladder.Settle` | internal/fix/ladder.go:134-249 | in whatever order the rungs that fire are applied, the key's constraint ends enforced with maxSkew 1 |
| `Ladder.LadderCloses` | internal/fix/ladder.go:134-249 | applying every one of rungs 1-3 that fires, in any order, yields a template classified as enforced on which none fires again, constraints on other keys unchanged in value and order |
| `Ladder.AntiAffinityConserved` | internal/fix/ladder.go:475-490 | promotion neither loses nor duplicates a term |
| `Ladder.AntiAffinityPromoted` | internal/fix/ladder.go:448-502 | after rung 7 the classifier calls the anti-affinity enforced and the rung has nothing left to do |
| `AntiAffinityFacts.ReplicasApart` | internal/fix/ladder.go:475-490 | under plugins that honour required terms, with a term that selects the pod's own kind, of any two replicas the later one is on a node without the label or with another value of it |
| `AntiAffinityFacts.RungSevenSurvives` | internal/fix/ladder.go:448-502 | rung 7, scheduled in full by such plugins where every node carries the label, passes both proofs iff there are two replicas, the claims pin the workload nowhere and its budget can be read |
| `AntiAffinityFacts.VacantRungSeven` | internal/fix/ladder.go:448-502 | the hypotheses can all be met: on a cluster empty but for the workload, with a value of the label for each replica, the fix is placed and passes under exactly those conditions |
| `AntiAffinityFacts.UncarriedRungSevenFails` | internal/fix/ladder.go:475-490 | the label is needed on every node: on one without it the term does not bind, plugins that honour it can put all replicas there, and proof 2 is refused |
| `Ladder.PdbUnsatisfiable` | internal/fix/ladder.go:341-391 | asking pdbcheck about a made-up snapshot answers iff the budget is fresh, there is a replica, and its fields forbid every eviction among that many |
| `Ladder.Rung6Exact` | internal/fix/ladder.go:341-372 | the made-up pods are all matched once, so the detour asks exactly that question |
| `Ladder.Rung6MeansKeepAll` | internal/fix/ladder.go:335-391 | the rung fires iff the number the engine would keep is all the replicas, or both fields are set and the ignored one resolves to zero |
| `Ladder.RepairHolds` | internal/fix/ladder.go:402-439 | the proposed maxUnavailable 1 never triggers the rung again, at any replica count |
| `LadderFacts.ProposedKeeps` | internal/fix/ladder.go:402-439 | the proposed budget keeps all pods but one, for the disruption controller and for the engine |
| `LadderFacts.RungsClaim` | internal/fix/patch.go:29-59 | a rung claims to improve survivability iff it changes the template or the count; only the eighth proposes nothing |
| `LadderFacts.RewritesFirst` | internal/fix/ladder.go:179-249 | rungs 2 and 3 rewrite one field of the first constraint on the key and nothing else |
| `LadderFacts.AddsOne` | internal/fix/ladder.go:167-174 | rung 1 appends one DoNotSchedule constraint of maxSkew 1 that counts exactly the pods with the workload's labels |
| `LadderFacts.OnlyPlacementChanges` | internal/fix/ladder.go:134-502 | no rung changes labels, claims or containers |
| `Ladder.RungsAscend` | internal/fix/ladder.go:88 | candidates come in ascending rungs between 1 and 8 |
| `Ladder.Candidates` | internal/fix/ladder.go:47-90 | exactly the rungs that fire, once each, in rung order |
| `DrainCheck.CandidatesByDomain` | internal/draincheck/draincheck.go:147-169 | under every domain and workload, exactly its available replicas on that domain's nodes, in snapshot order |
| `DrainCheck.OnlyFitsInside` | internal/draincheck/draincheck.go:125-143 | blocked iff every accepting entry is in the excluded domain |
| `DrainCheck.CandidateMeans` | internal/draincheck/draincheck.go:217-224 | the replacement is the victim in all but node and status |
| `DrainCheck.BlockedMeans` | internal/draincheck/draincheck.go:119-143 | which, for the scheduler's answers, means every node that accepts the replacement is in the drained domain |
| `DrainCheck.SortedRefs` | internal/draincheck/draincheck.go:171-178 | the workloads with a replica in the domain, once each, in name order |
| `DrainCheck.DetectOne` | internal/draincheck/draincheck.go:86-113 | one workload in one domain: probed through its first replica by name; an error iff a replacement that had to be placed is not admitted; a finding iff its budget passes the static check and only nodes inside accept; the scheduler ends as it began |
| `DrainCheck.DetectDomain` | internal/draincheck/draincheck.go:82-114 | one domain: the findings of all its workloads in order |
| `DrainCheck.Detect` | internal/draincheck/draincheck.go:51-117 | all domains in name order; on error, some replacement was not admitted; the scheduler ends as it began |
| `DrainCheck.FindingSound` | internal/draincheck/draincheck.go:99-113 | every finding names a workload whose first replica's replacement has no accepting node outside, under a budget the static check passes |
| `DrainCheck.FindingComplete` | internal/draincheck/draincheck.go:78-113 | every workload with a replica in a domain was probed, and is listed whenever its probe is blocked |
| `DrainCheck.FindingExact` | internal/draincheck/draincheck.go:78-113 | with distinct replica names, a workload is listed for a domain iff its first replica's eviction is blocked |
| `DrainCheck.FindingsInOrder` | internal/draincheck/draincheck.go:73-117 | the list goes by domain and, within a domain, by namespace and name; a workload comes once for a domain |
| `DrainRun.RunConserves` | internal/draincheck/draincheck.go:106-111 | in every run, covered pods placed plus replacements waiting stays constant |
| `DrainRun.EvictsAgainIff` | internal/draincheck/draincheck.go:106-111 | a drain whose waiting replacements fit nowhere outside evicts again in some run iff more covered pods are placed than the budget keeps and one of them is in the domain |
| `DrainRun.StuckForever` | internal/draincheck/draincheck.go:106-111 | a stuck drain with nothing to spare changes nothing but readiness, in every run |
| `DrainFacts.ForbidsMeansAll` | internal/pdbcheck/pdbcheck.go:111-119 | the static condition is that the budget keeps all its pods |
| `DrainFacts.NeverMeansNever` | internal/pdbcheck/pdbcheck.go:111-119 | under a budget called never satisfiable, no reachable state of any drain of any domain has evicted one of its Ready pods |
| `DrainFacts.NeverIff` | internal/pdbcheck/pdbcheck.go:60-124 | for a fresh budget whose pods are covered once and placed, the static check says never iff no drain of any domain can evict anything |
| `DrainFacts.CanEvictIff` | internal/pdbcheck/pdbcheck.go:111-119 | whatever the static check says, some drain of a budget whose pods are placed can evict one iff it covers a pod and its fields do not forbid every eviction |
| `DrainFacts.BlockedMeansNever` | internal/pdbcheck/pdbcheck.go:96-120 | a block of any kind says never, and no block says some drain can evict, iff the fields forbid every eviction or the block is neither a stale status nor an overlap |
| `DrainExamples.StaleBudgetEvicts` | internal/pdbcheck/pdbcheck.go:105-109 | a stale budget is blocked although a drain can evict its pod |
| `DrainFacts.FindingStuck` | internal/draincheck/draincheck.go:99-111 | the flagged eviction leaves the drain stuck, whatever the replacement is called |
| `DrainFacts.FindingExactly` | internal/draincheck/draincheck.go:106-111 | after the flagged eviction the budget permits another in some run iff it can spare a second pod and the domain holds one |
| `DrainFacts.FindingDeadlocks` | internal/draincheck/draincheck.go:106-111 | when the budget cannot spare a second pod of the domain, nothing more is evicted in any run after the flagged eviction and the replacement still waits |
| `DrainFacts.OneDisruption` | internal/draincheck/draincheck.go:106-111 | a budget that tolerates at most one disruption never can spare one |
| `DrainFacts.StrikesIff` | internal/draincheck/draincheck.go:99-111 | the flagged replica can be evicted under the budget at all iff the budget has a Ready pod to spare |
| `DrainFacts.UncoveredProbe` | internal/draincheck/draincheck.go:87-111 | when the budget does not cover the probed replica, its eviction leaves what the budget permits as it was |
| `DrainFacts.ListedFindingHolds` | internal/draincheck/draincheck.go:78-113 | for each listed finding: if its budget selects the probed replica, no run recovers from that eviction iff the budget cannot spare a second pod of the domain, or could not spare the first; if not, the drain goes on iff it could before |
| `DrainProbe.CoversProbe` | internal/draincheck/draincheck.go:87-101 | the budget of a finding covers the probed replica iff looking up that replica's own budget would have found the same one |
| `DrainProbe.SameBudgetCovers` | internal/draincheck/draincheck.go:87-101 | the budget covers the probed replica whenever one lookup serves all the workload's replicas in the domain |
| `DrainProbe.ProbeUncovered` | internal/draincheck/draincheck.go:87-101 | the two can differ: a StatefulSet half-way through a label change is flagged under a budget that does not select the replica probed |
| `DrainExamples.TolerantBudgetGoesOn` | internal/draincheck/draincheck.go:106-111 | the finding's claim is false for a more tolerant budget: three replicas in one zone, minAvailable 1, no other node; the first is listed, and after its eviction another is possible |
| `Exporter.Exporter.RecordFailure` | internal/exporter/exporter.go:226-229 | the cycle is unhealthy and counted; no finding changes |
| `Exporter.Exporter.Record` | internal/exporter/exporter.go:236-284 | every findings gauge is replaced by this cycle's data |
| `Exporter.Exporter.RunOnce` | internal/exporter/exporter.go:186-219 | one cycle keeps the run invariant: findings of the last completed cycle, success iff the latest completed, every failure counted; a cycle fails only on a failed fetch or, with the gate open, a scheduler that cannot be built or a replacement that is not admitted |
| `ExporterFacts.FailuresKeepReadings` | internal/exporter/exporter.go:221-229 | any number of failures changes no finding, is counted in full and reads as unhealthy |
| `ExporterFacts.LastGoodShown` | internal/exporter/exporter.go:221-235 | after a completed cycle and any failures, the findings are exactly that cycle's |
| `ExporterFacts.NothingYet` | internal/exporter/exporter.go:71-75 | until a cycle completes nothing is shown and the counter is the number of cycles |
| `ExporterFacts.SeriesFaithful` | internal/exporter/exporter.go:244-249 | every verdict reads back its own value iff verdicts that share a namespace/name agree |
| `ExporterFacts.KindsCollide` | internal/exporter/exporter.go:93-97 | two workloads of one name and different kinds share a series and the later one decides |
| `ExporterFacts.ServedAt` | internal/exporter/exporter.go:241-263 | the series of a domain exist for exactly its workloads and carry its own counts and values |
| `ExporterFacts.NoSeries` | internal/exporter/exporter.go:231-235 | a domain not in the report has no series |
| `ExporterFacts.FlagsExact` | internal/exporter/exporter.go:265-271 | a budget name has a series, of value 1, iff some finding under it is blocked |
| `ExporterFacts.HangsExact` | internal/exporter/exporter.go:273-276 | a budget and domain have a series, of value 1, iff some finding names them |
| `ExporterFacts.SurvivesGauge` | internal/exporter/exporter.go:86-89 | the gauge of a workload and domain is 1 iff every replica of the last good snapshot is on a labelled node, one outlives the domain and the budget asks for no more than run outside (workloads told apart by name) |
| `ExporterFacts.LostGauge` | internal/exporter/exporter.go:78-81 | the lost gauge of a domain is the number of workloads all of whose replicas go with it |
| `ExporterFacts.DegradedGauge` | internal/exporter/exporter.go:82-85 | the degraded gauge of a domain is the number of workloads that are neither lost nor unknown without it and keep fewer replicas outside than their budget asks for |
| `ExporterFacts.ImpairedGauge` | internal/exporter/exporter.go:251-262 | the impaired gauge of a workload and domain is 1 iff a workload of that namespace and name is not lost there and reaches, through the Services its pods name, one that is lost, unknown or backed by nobody |
| `ExporterFacts.BudgetGauge` | internal/exporter/exporter.go:265-271 | a budget name has a series, of value 1, iff the last good snapshot has a budget of that name that the static check blocks, for whatever reason |
| `ExporterFacts.UnlabelledGauge` | internal/exporter/exporter.go:283 | the gauge is the number of nodes that belong to no domain |
| `ExporterFacts.DeadlockGauge` | internal/exporter/exporter.go:273-282 | deadlock series exist iff the gate was open and the drain check found them; the enabled gauge says which |
| `GaugeFacts.BudgetGaugeMeans` | internal/exporter/exporter.go:110-112 | the gauge of a budget whose pods are placed means, as described, that it can never permit an eviction, iff its fields forbid every one or its block is neither a stale status nor an overlap |
| `GaugeFacts.ImpairedGaugeMeans` | internal/exporter/exporter.go:99-102 | when no two workloads share a name, the impaired gauge means, as described, that the workload survives and depends on a failure, iff it depends on none or is neither degraded nor unknown |
| `GaugeFacts.UnknownServedImpaired` | internal/exporter/exporter.go:251-262 | a concrete cluster on which an unknown workload is served as impaired |

## Left out

- The Filter and PreFilter plugins, resource quantities, taints and affinity evaluation: library code, a parameter of the model. The framework, informers and listers are not modelled.
- Scheduler cache internals: a map keyed by UID; adding fails iff the UID is present, removing iff it is absent, and refreshing the view never fails.
- Objects shared by pointer: pods, templates and budgets are values, so aliasing between a snapshot and its copies is not modelled; deep copies become plain copies.
- Messages: reasons, details, titles, the chain's display strings and the DependsOn lists are presentation. Chains are sequences of workloads, a finding carries the workload its message names, and the first refusal reason of a placement is kept because it is part of the result.
- Patch text (`internal/fix/patch.go`, the Patch fields of the ladder), rendering, flags, fetching from the API server, HTTP serving, the Run loop's timer and per-cycle timeouts.
- The exporter's timestamp and duration gauges: they come from the clock.
- `url.Parse`: a value with a scheme is read through a parameter that returns the URL's host; nothing is proved about which host that is.
- Label selectors are parsed or unparseable. A workload's own selector that does not parse is treated as having no match labels; the API server admits none.
- whenUnsatisfiable has two values, as in the API; a pod's Ready conditions are reduced to the status of the first one.
- `matchFields` of volume node affinity and the numeric comparison of Gt and Lt: no pin is ever derived from them; for Gt and Lt the model asks only that the label is present.
- Percentages are exact rationals rounded up; the library computes them in floating point, which gives the same result for any replica count in use.
- Integer widths: replica counts, skews and percentages are unbounded integers.
- The order of ties in library sorts and of Go map iteration is left open; results that could depend on it are stated for every order.
- VolumePin.ZonePinExact: for terms with one expression on a zone label each; a term that names several is not decided.
- VolumePin.PlainComplete: completeness of pins for terms of one In expression with distinct values; for arbitrary terms a volume can be confined to a domain in ways the code does not look for.
- DrainFacts.FindingDeadlocks: the drain evicts only pods the budget covers; other workloads' pods leaving during the drain, unready pods being evicted, and changes made by an operator are not steps of the model. A replacement the budget does not cover is left out of the state: its probe says it fits nowhere outside.
- RungFacts.EnforcedSpreadServes: that the plugins honour spread constraints is a hypothesis, over all the nodes of the cluster; node inclusion policies and node affinity, which make the library count fewer values, and matchLabelKeys are not modelled. Verdicts that rest on minDomains alone are excluded, being wrong (`Spread.ClassifyExact`).
- A topology label with an empty value counts as absent, as it does in `internal/domain`; the library counts it as a value of its own.
- AntiAffinityFacts.RungSevenSurvives: the plugins are assumed to honour terms without namespace selectors and label-key lists; the terms of pods already running only refuse more and are not modelled.
- DrainFacts.BlockedMeansNever: the drain evicts under one budget; that the eviction API refuses a pod two budgets cover, and every pod while a status is stale, is not part of the drain, which starts once statuses are current.
- Rank.Rank: the cause text that collects the errors of incomplete rungs is reduced to the list of those rungs.
- internal/version, the version gate, internal/render, internal/snapshot, internal/cli, cmd, demo, deploy, hack and test: plumbing, or single-branch facts.
