/** internal/verify/verify.go: the two proofs a fix must pass before it is shown. */
module Verify {
  import opened Basics
  import opened Cluster
  import opened Workload
  import opened Ladder
  import opened Sched
  import opened Survive
  import SchedFacts
  import SurviveFacts
  import Domain
  import DepGraph

  /** `failed` means neither question was answered. */
  datatype Proof = Proof(schedulable: bool, survives: bool, failed: bool)

  predicate IsPdbRung(rung: nat) { rung == 5 || rung == 6 }

  /** The fix alters something this proof can observe. */
  predicate Observable(f: Fix) { f.mutation != Nothing || f.replicas != 0 || IsPdbRung(f.rung) }

  function PodNamespace(namespace: string): (r: string) { if namespace == "" then "default" else namespace }

  /** The unassigned pod the simulation places. */
  function PodFromTemplate(t: Template, namespace: string, name: string): (r: Pod) {
    var n := if name == "" then "workload" else name;
    Pod(PodNamespace(namespace), n, n, t.labels, [], t.spec, PhaseUnknown, false, false)
  }

  function TargetReplicas(input: Input, f: Fix): (r: int) { if f.replicas > 0 then f.replicas else input.replicas }

  // ---------------------------------------------------------------- membership

  predicate BelongsTo(pod: Pod, idx: Index, ref: Ref) {
    match Owner(idx, pod)
    case Some(r) => r == ref
    case None => ref.kind == "Pod" && pod.namespace == ref.namespace && pod.name == ref.name
  }

  function Belonging(idx: Index, ref: Ref): (f: Pod -> bool) { (p: Pod) => BelongsTo(p, idx, ref) }
  function Foreign(idx: Index, ref: Ref): (f: Pod -> bool) { (p: Pod) => !BelongsTo(p, idx, ref) }

  /** The proof and the engine agree on whose pod it is. */
  lemma BelongsIsRef(pod: Pod, idx: Index, ref: Ref)
    ensures BelongsTo(pod, idx, ref) <==> RefOf(idx, pod) == ref
  {}

  method OwnedPods(pods: seq<Pod>, idx: Index, ref: Ref) returns (out: seq<Pod>)
    ensures out == Filter(pods, Belonging(idx, ref))
  {
    out := [];
    for i := 0 to |pods|
      invariant out == Filter(pods[..i], Belonging(idx, ref))
    {
      FilterStep(pods, i, Belonging(idx, ref));
      if BelongsTo(pods[i], idx, ref) { out := out + [pods[i]]; }
    }
    assert pods[..|pods|] == pods;
  }

  // ---------------------------------------------------------------- the hypothetical cluster

  /** One placed replica, owned so that the engine groups it back. */
  function SyntheticPod(t: Template, ref: Ref, node: string, i: nat): (r: Pod) {
    var owned := ref.kind != "" && ref.kind != "Pod";
    Pod(ref.namespace,
        if owned then ref.name + "-verify-" + Itoa(i) else ref.name,
        ref.name + "-verify-" + Itoa(i),
        t.labels,
        if owned then [OwnerRef(ref.kind, ref.name, ref.name, true)] else [],
        t.spec.(nodeName := node), Running, true, false)
  }

  function SyntheticPods(t: Template, ref: Ref, nodes: seq<string>): (r: seq<Pod>)
    ensures |r| == |nodes| && forall i :: 0 <= i < |r| ==> r[i] == SyntheticPod(t, ref, nodes[i], i)
  {
    seq(|nodes|, i requires 0 <= i < |nodes| => SyntheticPod(t, ref, nodes[i], i))
  }

  function WorkloadSelector(input: Input, t: Template): (r: Labels) {
    if input.selector != map[] then input.selector else t.labels
  }

  function PdbNameFor(ref: Ref): (r: string) { if ref.name != "" then ref.name + "-pdb" else "workload-pdb" }

  function Unrelated(ref: Ref, selector: Labels): (f: Budget -> bool) {
    (b: Budget) => !(b.namespace == ref.namespace && b.selector.Matches(selector))
  }

  /** The budget the hypothetical cluster adds: the proposed one for rungs 5 and 6, otherwise
      the workload's own. */
  function OwnBudget(input: Input, f: Fix, selector: Labels): (r: seq<Budget>) {
    var ref := input.workload;
    if IsPdbRung(f.rung) then
      [Budget(ref.namespace, PdbNameFor(ref), Parsed(selector, []), None, Some(Count(1)), 0, 0)]
    else if input.budget.Some? then
      var b := input.budget.value;
      [b.(namespace := ref.namespace,
          name := if b.name == "" then PdbNameFor(ref) else b.name,
          selector := if b.selector.Absent? then Parsed(selector, []) else b.selector)]
    else []
  }

  function Hypothetical(s: Snapshot, input: Input, f: Fix, t: Template, nodes: seq<string>): (r: Snapshot) {
    var selector := WorkloadSelector(input, t);
    s.(pods := Filter(s.pods, Foreign(IndexOf(s), input.workload)) + SyntheticPods(t, input.workload, nodes),
       budgets := Filter(s.budgets, Unrelated(input.workload, selector)) + OwnBudget(input, f, selector))
  }

  method HypotheticalSnapshot(s: Snapshot, input: Input, f: Fix, t: Template, nodes: seq<string>) returns (h: Snapshot)
    ensures h == Hypothetical(s, input, f, t, nodes)
  {
    var ref := input.workload;
    var idx := NewIndex(s);
    var pods := [];
    for i := 0 to |s.pods|
      invariant pods == Filter(s.pods[..i], Foreign(idx, ref))
    {
      FilterStep(s.pods, i, Foreign(idx, ref));
      if BelongsTo(s.pods[i], idx, ref) { continue; }
      pods := pods + [s.pods[i]];
    }
    assert s.pods[..|s.pods|] == s.pods;
    var synthetic := Synthesize(t, ref, nodes);
    var selector := WorkloadSelector(input, t);
    var budgets := KeepUnrelated(s.budgets, ref, selector);
    h := s.(pods := pods + synthetic, budgets := budgets + OwnBudget(input, f, selector));
  }

  method Synthesize(t: Template, ref: Ref, nodes: seq<string>) returns (pods: seq<Pod>)
    ensures pods == SyntheticPods(t, ref, nodes)
  {
    pods := [];
    for i := 0 to |nodes|
      invariant |pods| == i && forall j :: 0 <= j < i ==> pods[j] == SyntheticPod(t, ref, nodes[j], j)
    {
      pods := pods + [SyntheticPod(t, ref, nodes[i], i)];
    }
  }

  method KeepUnrelated(budgets: seq<Budget>, ref: Ref, selector: Labels) returns (out: seq<Budget>)
    ensures out == Filter(budgets, Unrelated(ref, selector))
  {
    out := [];
    for i := 0 to |budgets|
      invariant out == Filter(budgets[..i], Unrelated(ref, selector))
    {
      FilterStep(budgets, i, Unrelated(ref, selector));
      if budgets[i].namespace == ref.namespace && budgets[i].selector.Matches(selector) { continue; }
      out := out + [budgets[i]];
    }
    assert budgets[..|budgets|] == budgets;
  }

  // ---------------------------------------------------------------- the survivability question

  /** No domain of the report calls the workload lost or unknown. */
  ghost predicate Clears(report: Report, ref: Ref) {
    forall i, j :: 0 <= i < |report.domains| && 0 <= j < |report.domains[i].verdicts| ==>
      ClearsIn(report.domains[i], ref, j)
  }

  predicate ClearsIn(res: DomainResult, ref: Ref, j: nat)
    requires j < |res.verdicts|
  {
    res.verdicts[j].workload == ref ==> res.verdicts[j].outcome != Lost && res.verdicts[j].outcome != Unknown
  }

  method StillServes(report: Report, ref: Ref) returns (serves: bool)
    ensures serves <==> Clears(report, ref)
  {
    for i := 0 to |report.domains|
      invariant forall k, j :: 0 <= k < i && 0 <= j < |report.domains[k].verdicts| ==>
        ClearsIn(report.domains[k], ref, j)
    {
      var res := report.domains[i];
      for j := 0 to |res.verdicts|
        invariant forall k :: 0 <= k < j ==> ClearsIn(res, ref, k)
      {
        if res.verdicts[j].workload != ref { continue; }
        match res.verdicts[j].outcome {
          case Lost => assert !ClearsIn(report.domains[i], ref, j); return false;
          case Unknown => assert !ClearsIn(report.domains[i], ref, j); return false;
          case _ =>
        }
      }
    }
    return true;
  }

  // ---------------------------------------------------------------- the verifier

  /** The simulation a fix is put through: its template's replicas, with the workload's current
      pods out of the view. */
  ghost function JobOf(filter: Plugins, s: Snapshot, key: string, input: Input, f: Fix): (r: Job) {
    var t := Mutated(input.template, f.mutation);
    Job(filter, s.nodes, key, PodFromTemplate(t, input.workload.namespace, input.workload.name),
        RemoveAll(Seed(s.pods), Filter(Filter(s.pods, Belonging(IndexOf(s), input.workload)), IsAssigned())))
  }

  /** The simulation gives an answer. */
  ghost predicate Simulates(job: Job, replicas: int) {
    replicas > 0 && job.pod.spec.nodeName == "" && job.Clean(replicas)
  }

  /** Somewhere for every replica. */
  ghost predicate AllPlaced(job: Job, replicas: int) {
    Simulates(job, replicas) && job.Outcome(replicas).unschedulable == 0
  }

  /** The engine's verdict for losing `d` is neither lost nor unknown. */
  ghost predicate ClearedIn(s: Snapshot, key: string, ref: Ref, pods: seq<Pod>, d: string) {
    var o := OutcomeOf(s, key, pods, Replicas(IndexOf(s), ref, |pods|), d);
    o != Lost && o != Unknown
  }

  /** No domain's loss is called lost or unknown, for a workload the engine sees at all. */
  ghost predicate Serving(s: Snapshot, key: string, ref: Ref) {
    var pods := Members(IndexOf(s), s.pods, ref);
    pods != [] ==> forall d :: d in Domain.DomainsOf(s.nodes, key) ==> ClearedIn(s, key, ref, pods, d)
  }

  /** The two answers, read off the simulation and the engine. An architectural finding claims
      nothing; a fix that changes nothing, or a simulation that ends in an error, proves nothing. */
  ghost function ProofOf(filter: Plugins, s: Snapshot, key: string, input: Input, f: Fix): (r: Proof) {
    var job := JobOf(filter, s, key, input, f);
    var replicas := TargetReplicas(input, f);
    if f.architectural then Proof(false, false, false)
    else if !Observable(f) || !Simulates(job, replicas) then Proof(false, false, true)
    else if !AllPlaced(job, replicas) then Proof(false, false, false)
    else
      Proof(true,
            Serving(Hypothetical(s, input, f, Mutated(input.template, f.mutation), job.Outcome(replicas).nodes), key,
                    input.workload),
            false)
  }

  class Verifier {
    const sched: Scheduler
    const snap: Snapshot
    const key: string
    const urlHost: DepGraph.UrlHost

    constructor (sched: Scheduler, snap: Snapshot, key: string, urlHost: DepGraph.UrlHost)
      ensures this.sched == sched && this.snap == snap && this.key == key && this.urlHost == urlHost
    {
      this.sched, this.snap, this.key, this.urlHost := sched, snap, key, urlHost;
    }

    /** The scheduler was built over this snapshot and holds exactly its assigned pods. */
    ghost predicate Valid()
      reads this, sched
    {
      && sched.Valid() && sched.nodes == snap.nodes
      && SchedFacts.Seedable(snap.pods) && sched.cache == Seed(snap.pods)
    }

    method Verify(input: Input, f: Fix) returns (p: Proof)
      requires Valid()
      modifies sched
      ensures Valid() && sched.cache == old(sched.cache) && sched.view == old(sched.view)
      ensures p == ProofOf(sched.filter, snap, key, input, f)
    {
      p := Proof(false, false, false);
      if f.architectural { return; }
      if !Observable(f) { return Proof(false, false, true); }

      var original := new PodTemplate(input.template);
      var changed := original.Apply(f);
      var tmpl := changed.Value();
      var replicas := TargetReplicas(input, f);
      var pod := PodFromTemplate(tmpl, input.workload.namespace, input.workload.name);
      var idx := NewIndex(snap);
      var existing := OwnedPods(snap.pods, idx, input.workload);
      SchedFacts.SnapshotRollsBack(snap.pods, Belonging(idx, input.workload));
      var placement := sched.PlaceReplacing(pod, replicas, key, existing);
      if placement.Err? { return Proof(false, false, true); }
      if placement.value.unschedulable > 0 { return; }
      var serves := Survivability(input, f, tmpl, placement.value.nodes);
      return Proof(true, serves, false);
    }

    /** Proof 2: ask the engine about the cluster the fix would produce. */
    method Survivability(input: Input, f: Fix, t: Template, nodes: seq<string>) returns (serves: bool)
      requires UniqueNames(snap.nodes)
      ensures serves <==> Serving(Hypothetical(snap, input, f, t, nodes), key, input.workload)
    {
      var h := HypotheticalSnapshot(snap, input, f, t, nodes);
      var report, g, refs := Survive.Analyze(h, key, urlHost);
      serves := StillServes(report, input.workload);
      ClearsIsServing(h, key, urlHost, g, refs, report, input.workload);
    }
  }

  lemma ServingClears(s: Snapshot, key: string, urlHost: DepGraph.UrlHost, g: DepGraph.Graph, refs: seq<Ref>,
                      report: Report, ref: Ref, i: nat, j: nat)
    requires IsReport(s, IndexOf(s), key, urlHost, g, refs, report) && Serving(s, key, ref)
    requires i < |report.domains| && j < |report.domains[i].verdicts|
    ensures ClearsIn(report.domains[i], ref, j)
  {
    if report.domains[i].verdicts[j].workload == ref {
      SurviveFacts.VerdictOwner(s, key, urlHost, g, refs, report, i, j);
      var k := SurviveFacts.ReportComplete(s, key, urlHost, g, refs, report, i, ref);
      assert j == k && ClearedIn(s, key, ref, Members(IndexOf(s), s.pods, ref), report.domains[i].domain);
    }
  }

  lemma ClearsServes(s: Snapshot, key: string, urlHost: DepGraph.UrlHost, g: DepGraph.Graph, refs: seq<Ref>,
                     report: Report, ref: Ref, d: string)
    requires IsReport(s, IndexOf(s), key, urlHost, g, refs, report) && Clears(report, ref)
    requires Members(IndexOf(s), s.pods, ref) != [] && d in Domain.DomainsOf(s.nodes, key)
    ensures ClearedIn(s, key, ref, Members(IndexOf(s), s.pods, ref), d)
  {
    var i := SurviveFacts.DomainRow(s, key, report, d);
    var j := SurviveFacts.ReportComplete(s, key, urlHost, g, refs, report, i, ref);
    assert ClearsIn(report.domains[i], ref, j);
  }

  /** Reading the report is asking the engine's question of every domain. */
  lemma ClearsIsServing(s: Snapshot, key: string, urlHost: DepGraph.UrlHost, g: DepGraph.Graph, refs: seq<Ref>,
                        report: Report, ref: Ref)
    requires IsReport(s, IndexOf(s), key, urlHost, g, refs, report)
    ensures Clears(report, ref) <==> Serving(s, key, ref)
  {
    if Serving(s, key, ref) {
      forall i, j | 0 <= i < |report.domains| && 0 <= j < |report.domains[i].verdicts|
        ensures ClearsIn(report.domains[i], ref, j)
      {
        ServingClears(s, key, urlHost, g, refs, report, ref, i, j);
      }
    }
    var pods := Members(IndexOf(s), s.pods, ref);
    if Clears(report, ref) && pods != [] {
      forall d | d in Domain.DomainsOf(s.nodes, key) ensures ClearedIn(s, key, ref, pods, d) {
        ClearsServes(s, key, urlHost, g, refs, report, ref, d);
      }
    }
  }
}
