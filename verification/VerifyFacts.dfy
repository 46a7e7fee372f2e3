/** What a printed fix is worth: from the verifier's two booleans to placed replicas outside
    every failure domain. */
module VerifyFacts {
  import opened Basics
  import opened Cluster
  import opened Workload
  import opened Ladder
  import opened Sched
  import opened Survive
  import opened Verify
  import SchedFacts
  import SurviveFacts
  import PdbCheck
  import VolumePin
  import Domain

  // ---------------------------------------------------------------- whose replicas they are

  predicate DeploymentControls(rs: ReplicaSet) {
    ControllerOf(rs.owners).Some? && ControllerOf(rs.owners).value.kind == "Deployment"
  }

  /** A reference of some kind; and if it is a ReplicaSet whose name happens to be the UID of a
      ReplicaSet in the index, that is the very one, with no Deployment above it. */
  predicate Resolves(idx: Index, ref: Ref) {
    && ref.kind != ""
    && (ref.kind == "ReplicaSet" && ref.name in idx.replicaSets ==>
          var rs := idx.replicaSets[ref.name];
          !DeploymentControls(rs) && rs.namespace == ref.namespace && rs.name == ref.name)
  }

  /** These are exactly the workloads whose synthetic replicas the engine groups back. */
  lemma SyntheticRef(idx: Index, t: Template, ref: Ref, node: string, i: nat)
    ensures RefOf(idx, Verify.SyntheticPod(t, ref, node, i)) == ref <==> Resolves(idx, ref)
  {}

  lemma {:induction false} MembersConcat(idx: Index, xs: seq<Pod>, ys: seq<Pod>, ref: Ref)
    ensures Members(idx, xs + ys, ref) == Members(idx, xs, ref) + Members(idx, ys, ref)
  {
    if ys == [] {
      assert xs + ys == xs;
    } else {
      var init, last := ys[..|ys| - 1], ys[|ys| - 1];
      assert (xs + ys)[..|xs + ys| - 1] == xs + init;
      MembersConcat(idx, xs, init, ref);
    }
  }

  lemma {:induction false} MembersAll(idx: Index, pods: seq<Pod>, ref: Ref)
    requires forall p :: p in pods ==> Serves(idx, p, ref)
    ensures Members(idx, pods, ref) == pods
  {
    if pods != [] {
      assert pods == pods[..|pods| - 1] + [pods[|pods| - 1]];
      MembersAll(idx, pods[..|pods| - 1], ref);
    }
  }

  lemma {:induction false} MembersNone(idx: Index, pods: seq<Pod>, ref: Ref)
    requires forall p :: p in pods ==> !Serves(idx, p, ref)
    ensures Members(idx, pods, ref) == []
  {
    if pods != [] {
      assert pods == pods[..|pods| - 1] + [pods[|pods| - 1]];
      MembersNone(idx, pods[..|pods| - 1], ref);
    }
  }

  /** In the hypothetical cluster the workload's available pods are the placed replicas, all of
      them and no others, if it resolves; otherwise it has none. */
  lemma HypotheticalMembers(s: Snapshot, input: Input, f: Fix, t: Template, nodes: seq<string>)
    ensures var h := Hypothetical(s, input, f, t, nodes);
      && IndexOf(h) == IndexOf(s)
      && Members(IndexOf(h), h.pods, input.workload)
           == if Resolves(IndexOf(s), input.workload) then Verify.SyntheticPods(t, input.workload, nodes) else []
  {
    var idx, ref := IndexOf(s), input.workload;
    var kept := Filter(s.pods, Foreign(idx, ref));
    var placed := Verify.SyntheticPods(t, ref, nodes);
    FilterMembers(s.pods, Foreign(idx, ref));
    forall p | p in kept ensures !Serves(idx, p, ref) { BelongsIsRef(p, idx, ref); }
    forall p | p in placed ensures Serves(idx, p, ref) <==> Resolves(idx, ref) {
      var i :| 0 <= i < |placed| && placed[i] == p;
      SyntheticRef(idx, t, ref, nodes[i], i);
    }
    MembersConcat(idx, kept, placed, ref);
    MembersNone(idx, kept, ref);
    if Resolves(idx, ref) { MembersAll(idx, placed, ref); } else { MembersNone(idx, placed, ref); }
  }

  // ---------------------------------------------------------------- what is simulated

  /** What is simulated: over the snapshot's nodes and the command's key, a pod with the changed
      template's labels and whole spec, under the workload's name and in its namespace, or the
      default ones. */
  lemma SimulatedPod(filter: Plugins, s: Snapshot, key: string, input: Input, f: Fix)
    ensures var job, t, ref := JobOf(filter, s, key, input, f), Mutated(input.template, f.mutation), input.workload;
      && job.filter == filter && job.nodes == s.nodes && job.key == key
      && job.pod.labels == t.labels && job.pod.spec == t.spec && !job.pod.deleting && job.pod.owners == []
      && job.pod.namespace == (if ref.namespace == "" then "default" else ref.namespace)
      && job.pod.name == job.pod.uid == if ref.name == "" then "workload" else ref.name
  {}

  /** A synthetic replica serves: it is running, ready, on its node, and has the template's labels and
      the rest of its spec. */
  lemma SyntheticServes(t: Template, ref: Ref, node: string, i: nat)
    ensures var p := Verify.SyntheticPod(t, ref, node, i);
      && p.Available() && (node != "" ==> p.Assigned())
      && p.namespace == ref.namespace && p.labels == t.labels
      && p.spec.nodeName == node && p.spec.(nodeName := t.spec.nodeName) == t.spec
  {}

  /** What a proof is asked of: the unchanged workload is refused, every rung that can be applied is
      taken, and a budget rung although it leaves template and count alone. */
  lemma RungsAreObservable(input: Input, rung: nat)
    requires 1 <= rung <= 7 && input.domains != []
    ensures Observable(FixOf(input, rung)) && !Observable(FixOf(input, 8))
    ensures IsPdbRung(rung) <==> FixOf(input, rung).mutation == Nothing && FixOf(input, rung).replicas == 0
  {}

  // ---------------------------------------------------------------- the budgets of the hypothetical cluster

  function OwnLabels(input: Input, t: Template): (r: Labels) {
    if input.selector == map[] then t.labels else input.selector
  }

  /** The cluster's budgets that do not select the workload's labels, in the workload's namespace. */
  ghost predicate Others(s: Snapshot, input: Input, t: Template, b: Budget) {
    b in s.budgets && !(b.namespace == input.workload.namespace && b.selector.Matches(OwnLabels(input, t)))
  }

  /** The workload's own: what rungs 5 and 6 propose, or else its budget as it is, brought into its
      namespace and given its labels if it has no selector. */
  ghost predicate Own(input: Input, f: Fix, t: Template, b: Budget) {
    && b.namespace == input.workload.namespace
    && if f.rung == 5 || f.rung == 6 then
         && b.selector == Parsed(OwnLabels(input, t), []) && b.generation == 0 == b.observedGeneration
         && b.minAvailable.None? && b.maxUnavailable == Some(Count(1))
         && b.name == if input.workload.name == "" then "workload-pdb" else input.workload.name + "-pdb"
       else
         && input.budget.Some?
         && var was := input.budget.value;
           && b.minAvailable == was.minAvailable && b.maxUnavailable == was.maxUnavailable
           && b.generation == was.generation && b.observedGeneration == was.observedGeneration
           && b.selector == (if was.selector.Absent? then Parsed(OwnLabels(input, t), []) else was.selector)
           && b.name == if was.name != "" then was.name
                        else if input.workload.name == "" then "workload-pdb" else input.workload.name + "-pdb"
  }

  lemma HypotheticalBudgets(s: Snapshot, input: Input, f: Fix, t: Template, nodes: seq<string>, b: Budget)
    ensures b in Hypothetical(s, input, f, t, nodes).budgets <==> Others(s, input, t, b) || Own(input, f, t, b)
  {
    FilterMembers(s.budgets, Unrelated(input.workload, WorkloadSelector(input, t)));
    OwnIff(input, f, t, b);
  }

  lemma OwnIff(input: Input, f: Fix, t: Template, b: Budget)
    ensures b in OwnBudget(input, f, WorkloadSelector(input, t)) <==> Own(input, f, t, b)
  {
    var own := OwnBudget(input, f, WorkloadSelector(input, t));
    if b in own { assert b == own[0]; }
    if Own(input, f, t, b) { assert SameBudget(b, own[0]); }
  }

  predicate SameBudget(a: Budget, b: Budget) {
    && a.namespace == b.namespace && a.name == b.name && a.selector == b.selector
    && a.minAvailable == b.minAvailable && a.maxUnavailable == b.maxUnavailable
    && a.generation == b.generation && a.observedGeneration == b.observedGeneration
  }

  /** Everything else in the hypothetical cluster is as it was. */
  lemma HypotheticalRest(s: Snapshot, input: Input, f: Fix, t: Template, nodes: seq<string>, p: Pod)
    ensures var h := Hypothetical(s, input, f, t, nodes); h == s.(pods := h.pods, budgets := h.budgets)
    ensures p in Hypothetical(s, input, f, t, nodes).pods <==>
      || (p in s.pods && RefOf(IndexOf(s), p) != input.workload)
      || exists i: nat :: i < |nodes| && p == Verify.SyntheticPod(t, input.workload, nodes[i], i)
  {
    FilterMembers(s.pods, Foreign(IndexOf(s), input.workload));
    BelongsIsRef(p, IndexOf(s), input.workload);
    var placed := Verify.SyntheticPods(t, input.workload, nodes);
    if p in placed { var i :| 0 <= i < |placed| && placed[i] == p; }
    if i: nat :| i < |nodes| && p == Verify.SyntheticPod(t, input.workload, nodes[i], i) { assert placed[i] in placed; }
  }

  // ---------------------------------------------------------------- the end-to-end claim

  /** Replica `i` keeps the workload alive when `d` is lost: a labelled node elsewhere, and no
      volume that ties it to `d`. */
  ghost predicate KeepsAlive(h: Snapshot, key: string, t: Template, ref: Ref, nodes: seq<string>, i: int, d: string) {
    && 0 <= i < |nodes|
    && Domain.DomainOfName(h.nodes, key, nodes[i]) != d
    && Domain.DomainOfName(h.nodes, key, nodes[i]) != ""
    && !VolumePin.PinnedTo(h, Verify.SyntheticPod(t, ref, nodes[i], i), key, d)
  }

  ghost predicate AllLabelled(h: Snapshot, key: string, nodes: seq<string>) {
    forall i :: 0 <= i < |nodes| ==> Domain.DomainOfName(h.nodes, key, nodes[i]) != ""
  }

  ghost predicate BudgetReadable(h: Snapshot, t: Template, ref: Ref, nodes: seq<string>) {
    nodes != [] &&
      var first := Verify.SyntheticPod(t, ref, nodes[0], 0);
      !PdbCheck.DesiredAvailable(h.budgets, first, Replicas(IndexOf(h), ref, |nodes|)).Unreadable?
  }

  /** What clearing the workload for `d` takes: known domains, a readable budget, a survivor. */
  ghost predicate Withstands(h: Snapshot, key: string, t: Template, ref: Ref, nodes: seq<string>, d: string)
    requires nodes != []
  {
    && AllLabelled(h, key, nodes)
    && BudgetReadable(h, t, ref, nodes)
    && exists i :: KeepsAlive(h, key, t, ref, nodes, i, d)
  }

  /** The engine clears a resolving workload exactly when, for every domain of the cluster, the
      replicas are all on labelled nodes, the budget can be read, and one replica keeps it
      alive without that domain. */
  lemma ServingExactly(s: Snapshot, key: string, input: Input, f: Fix, t: Template, nodes: seq<string>)
    requires nodes != [] && Resolves(IndexOf(s), input.workload)
    ensures var h := Hypothetical(s, input, f, t, nodes);
      Serving(h, key, input.workload) <==>
      forall d :: d in Domain.DomainsOf(s.nodes, key) ==> Withstands(h, key, t, input.workload, nodes, d)
  {
    var h, ref := Hypothetical(s, input, f, t, nodes), input.workload;
    var pods := Verify.SyntheticPods(t, ref, nodes);
    HypotheticalMembers(s, input, f, t, nodes);
    forall d | d in Domain.DomainsOf(s.nodes, key)
      ensures ClearedIn(h, key, ref, pods, d) <==> Withstands(h, key, t, ref, nodes, d)
    {
      Domain.DomainNonEmpty(s.nodes, key, d);
      ReplicaOutcome(h, key, t, ref, nodes, d);
    }
  }

  lemma LabelledIffPlaced(h: Snapshot, key: string, t: Template, ref: Ref, nodes: seq<string>)
    ensures AllLabelled(h, key, nodes) <==> !SurviveFacts.Unplaced(h, key, Verify.SyntheticPods(t, ref, nodes))
  {
    var pods := Verify.SyntheticPods(t, ref, nodes);
    if !AllLabelled(h, key, nodes) {
      var i :| 0 <= i < |nodes| && Domain.DomainOfName(h.nodes, key, nodes[i]) == "";
      assert pods[i] in pods;
    }
  }

  lemma SurvivorIffNotGone(h: Snapshot, key: string, t: Template, ref: Ref, nodes: seq<string>, d: string)
    requires AllLabelled(h, key, nodes)
    ensures (exists i :: KeepsAlive(h, key, t, ref, nodes, i, d))
       <==> !SurviveFacts.AllGone(h, key, d, Verify.SyntheticPods(t, ref, nodes))
  {
    var pods := Verify.SyntheticPods(t, ref, nodes);
    if !SurviveFacts.AllGone(h, key, d, pods) {
      var p :| p in pods && !SurviveFacts.Gone(h, key, d, p);
      var i :| 0 <= i < |pods| && pods[i] == p;
      assert KeepsAlive(h, key, t, ref, nodes, i, d);
    }
    if i :| KeepsAlive(h, key, t, ref, nodes, i, d) {
      assert pods[i] in pods && !SurviveFacts.Gone(h, key, d, pods[i]);
    }
  }

  lemma ReplicaOutcome(h: Snapshot, key: string, t: Template, ref: Ref, nodes: seq<string>, d: string)
    requires nodes != [] && d != ""
    ensures ClearedIn(h, key, ref, Verify.SyntheticPods(t, ref, nodes), d) <==> Withstands(h, key, t, ref, nodes, d)
  {
    var pods := Verify.SyntheticPods(t, ref, nodes);
    SurviveFacts.ClosedForm(h, key, pods, Replicas(IndexOf(h), ref, |pods|), d);
    LabelledIffPlaced(h, key, t, ref, nodes);
    if AllLabelled(h, key, nodes) { SurvivorIffNotGone(h, key, t, ref, nodes, d); }
  }

  /** Each replica is on the first node the plugins accept, in the view that holds those before it. */
  ghost predicate EachFirstAccepted(job: Job, nodes: seq<string>) {
    forall j :: 0 <= j < |nodes| ==> OnFirstAccepted(job, nodes, j)
  }

  ghost predicate OnFirstAccepted(job: Job, nodes: seq<string>, j: nat)
    requires j < |nodes|
  {
    exists m: nat :: SchedFacts.FirstAccepted(job.filter, job.nodes, job.ViewAt(j), Sim(job.pod, j), m)
                  && job.nodes[m].name == nodes[j]
  }

  lemma PlacedFirstAccepted(job: Job, r: nat)
    requires job.Outcome(r).unschedulable == 0
    ensures |job.Outcome(r).nodes| == r && EachFirstAccepted(job, job.Outcome(r).nodes)
  {
    SchedFacts.Accounting(job, r);
    forall j | 0 <= j < r ensures OnFirstAccepted(job, job.Outcome(r).nodes, j) {
      var m := SchedFacts.EveryReplicaAccepted(job, r, j);
    }
  }

  /** End to end: a fix proven schedulable and surviving has placed every requested replica,
      each where the plugins accept it first in the view that holds the replicas before it; and
      for each domain of the cluster one of those replicas is on a labelled node outside it,
      free of volumes pinned to it. */
  lemma ProvenFix(filter: Plugins, s: Snapshot, key: string, input: Input, f: Fix, d: string) returns (i: nat)
    requires ProofOf(filter, s, key, input, f).survives
    requires Resolves(IndexOf(s), input.workload)
    requires d in Domain.DomainsOf(s.nodes, key)
    ensures ProofOf(filter, s, key, input, f) == Proof(true, true, false)
    ensures var job := JobOf(filter, s, key, input, f);
      var nodes := job.Outcome(TargetReplicas(input, f)).nodes;
      var t := Mutated(input.template, f.mutation);
      && |nodes| == TargetReplicas(input, f) > 0
      && EachFirstAccepted(job, nodes)
      && KeepsAlive(Hypothetical(s, input, f, t, nodes), key, t, input.workload, nodes, i, d)
  {
    var job := JobOf(filter, s, key, input, f);
    var r: nat := TargetReplicas(input, f);
    var nodes := job.Outcome(r).nodes;
    var t := Mutated(input.template, f.mutation);
    PlacedFirstAccepted(job, r);
    ServingExactly(s, key, input, f, t, nodes);
    assert Withstands(Hypothetical(s, input, f, t, nodes), key, t, input.workload, nodes, d);
    var k :| KeepsAlive(Hypothetical(s, input, f, t, nodes), key, t, input.workload, nodes, k, d);
    i := k;
  }

  /** A pod in place when the simulation starts: it occupies a node and is another workload's. */
  predicate InPlace(s: Snapshot, ref: Ref, p: Pod) {
    p in s.pods && p.Assigned() && RefOf(IndexOf(s), p) != ref
  }

  /** The view the simulation starts from holds exactly those, each as the snapshot has it. */
  lemma StartView(filter: Plugins, s: Snapshot, key: string, input: Input, f: Fix, p: Pod)
    requires SchedFacts.Seedable(s.pods)
    ensures var start := JobOf(filter, s, key, input, f).start;
      p.uid in start && start[p.uid] == p <==> InPlace(s, input.workload, p)
  {
    var idx, ref := IndexOf(s), input.workload;
    var own := Filter(Filter(s.pods, Belonging(idx, ref)), IsAssigned());
    FilterMembers(s.pods, Belonging(idx, ref));
    FilterMembers(Filter(s.pods, Belonging(idx, ref)), IsAssigned());
    RemoveAllKeys(Seed(s.pods), own, p.uid);
    BelongsIsRef(p, idx, ref);
    var start := JobOf(filter, s, key, input, f).start;
    if p.uid in start && start[p.uid] == p {
      SeedMembers(s.pods, p.uid);
      assert forall i :: 0 <= i < |own| ==> own[i].uid != p.uid;
      assert p !in own;
    }
    if InPlace(s, ref, p) {
      SchedFacts.SeedHolds(s.pods, p);
      forall i | 0 <= i < |own| ensures own[i].uid != p.uid {
        assert own[i] in own;
        SchedFacts.SeedHolds(s.pods, own[i]);
        BelongsIsRef(own[i], idx, ref);
      }
    }
  }

  lemma SeedMembers(pods: seq<Pod>, u: string)
    requires SchedFacts.Seedable(pods) && u in Seed(pods)
    ensures Seed(pods)[u] in pods && Seed(pods)[u].Assigned() && Seed(pods)[u].uid == u
  {
    var occupying := Filter(pods, IsAssigned());
    FilterMembers(pods, IsAssigned());
    AddableIff(map[], occupying);
    AddAllKeys(map[], occupying, u);
    var i :| 0 <= i < |occupying| && occupying[i].uid == u;
    assert occupying[i] in occupying;
  }

  lemma StartKeys(filter: Plugins, s: Snapshot, key: string, input: Input, f: Fix, u: string)
    requires SchedFacts.Seedable(s.pods)
    ensures var start := JobOf(filter, s, key, input, f).start; u in start ==> start[u].uid == u
  {
    var own := Filter(Filter(s.pods, Belonging(IndexOf(s), input.workload)), IsAssigned());
    RemoveAllKeys(Seed(s.pods), own, u);
    if u in JobOf(filter, s, key, input, f).start { SeedMembers(s.pods, u); }
  }

  // ---------------------------------------------------------------- where the claim is empty

  /** A workload the engine cannot group back is cleared whatever the placement. */
  lemma UnresolvedIsVacuous(s: Snapshot, key: string, input: Input, f: Fix, t: Template, nodes: seq<string>)
    requires !Resolves(IndexOf(s), input.workload)
    ensures Serving(Hypothetical(s, input, f, t, nodes), key, input.workload)
  {
    HypotheticalMembers(s, input, f, t, nodes);
  }

  /** So "survives" means what it says, for a placement that fails it, exactly for resolving
      workloads: with every replica in the one domain `d` the claim is refuted iff it resolves. */
  lemma ResolvingIsNeeded(s: Snapshot, key: string, input: Input, f: Fix, t: Template, nodes: seq<string>, d: string)
    requires nodes != [] && d in Domain.DomainsOf(s.nodes, key)
    requires forall i :: 0 <= i < |nodes| ==> Domain.DomainOfName(s.nodes, key, nodes[i]) == d
    ensures !Serving(Hypothetical(s, input, f, t, nodes), key, input.workload) <==> Resolves(IndexOf(s), input.workload)
  {
    if Resolves(IndexOf(s), input.workload) {
      ServingExactly(s, key, input, f, t, nodes);
    } else {
      UnresolvedIsVacuous(s, key, input, f, t, nodes);
    }
  }

  // ---------------------------------------------------------------- proof 2 in closed form

  /** Where a fix puts its replicas. */
  ghost function Placed(filter: Plugins, s: Snapshot, key: string, input: Input, f: Fix): (r: seq<string>)
    requires TargetReplicas(input, f) > 0
  {
    JobOf(filter, s, key, input, f).Outcome(TargetReplicas(input, f)).nodes
  }

  /** The cluster a fix would produce. */
  ghost function After(filter: Plugins, s: Snapshot, key: string, input: Input, f: Fix): (r: Snapshot)
    requires TargetReplicas(input, f) > 0
  {
    Hypothetical(s, input, f, Mutated(input.template, f.mutation), Placed(filter, s, key, input, f))
  }

  /** No claim of the template leads to a volume that ties the workload to a domain. */
  ghost predicate Unpinned(s: Snapshot, key: string, input: Input, t: Template) {
    forall d :: d in Domain.DomainsOf(s.nodes, key) ==>
      !VolumePin.ClaimsPin(s, input.workload.namespace, t.spec.claims, key, d)
  }

  lemma SyntheticPins(s: Snapshot, key: string, input: Input, f: Fix, t: Template, nodes: seq<string>, i: nat,
                      d: string)
    requires i < |nodes|
    ensures VolumePin.PinnedTo(Hypothetical(s, input, f, t, nodes), Verify.SyntheticPod(t, input.workload, nodes[i], i),
                               key, d)
       <==> VolumePin.ClaimsPin(s, input.workload.namespace, t.spec.claims, key, d)
  {
    VolumePin.SamePins(Hypothetical(s, input, f, t, nodes), s, input.workload.namespace, t.spec.claims, key);
  }

  /** The replicas do not all share one domain. */
  ghost predicate Apart(nodes: seq<Node>, key: string, placed: seq<string>) {
    exists i, j :: 0 <= i < |placed| && 0 <= j < |placed|
      && Domain.DomainOfName(nodes, key, placed[i]) != Domain.DomainOfName(nodes, key, placed[j])
  }

  /** Nothing but the placement is in the way: no pins, and a budget that can be read. */
  ghost predicate Unhindered(s: Snapshot, key: string, input: Input, f: Fix, t: Template, nodes: seq<string>) {
    Unpinned(s, key, input, t) && BudgetReadable(Hypothetical(s, input, f, t, nodes), t, input.workload, nodes)
  }

  /** With readable budgets the pins are all there is. */
  lemma UnhinderedWhenReadable(s: Snapshot, key: string, input: Input, f: Fix, t: Template, nodes: seq<string>)
    requires nodes != [] && PdbCheck.Parseable(s.budgets)
    requires input.budget.Some? ==> !input.budget.value.selector.Unparseable?
    ensures Unhindered(s, key, input, f, t, nodes) <==> Unpinned(s, key, input, t)
  {
    var h := Hypothetical(s, input, f, t, nodes);
    HypotheticalReadable(s, input, f, t, nodes);
    PdbCheck.ParseableNeverUnreadable(h.budgets, Verify.SyntheticPod(t, input.workload, nodes[0], 0),
                                      Replicas(IndexOf(h), input.workload, |nodes|));
  }

  lemma WithstandsIff(s: Snapshot, key: string, input: Input, f: Fix, t: Template, nodes: seq<string>, d: string)
    requires nodes != []
    ensures var h := Hypothetical(s, input, f, t, nodes);
      Withstands(h, key, t, input.workload, nodes, d) <==>
      && AllLabelled(s, key, nodes) && BudgetReadable(h, t, input.workload, nodes)
      && !VolumePin.ClaimsPin(s, input.workload.namespace, t.spec.claims, key, d)
      && exists i: nat :: i < |nodes| && Domain.DomainOfName(s.nodes, key, nodes[i]) != d
  {
    var h := Hypothetical(s, input, f, t, nodes);
    forall i: nat | i < |nodes|
      ensures KeepsAlive(h, key, t, input.workload, nodes, i, d) <==>
        && Domain.DomainOfName(s.nodes, key, nodes[i]) != d && Domain.DomainOfName(s.nodes, key, nodes[i]) != ""
        && !VolumePin.ClaimsPin(s, input.workload.namespace, t.spec.claims, key, d)
    {
      SyntheticPins(s, key, input, f, t, nodes, i, d);
    }
    if AllLabelled(s, key, nodes) && !VolumePin.ClaimsPin(s, input.workload.namespace, t.spec.claims, key, d) {
      if i: nat :| i < |nodes| && Domain.DomainOfName(s.nodes, key, nodes[i]) != d {
        assert KeepsAlive(h, key, t, input.workload, nodes, i, d);
      }
    }
  }

  /** Proof 2 of any placement, in closed form: in a cluster with a domain, a resolving workload
      passes exactly when its replicas are on labelled nodes, not all in one domain, its claims
      pin it nowhere and its budget can be read. */
  lemma ServingIff(s: Snapshot, key: string, input: Input, f: Fix, t: Template, nodes: seq<string>)
    requires nodes != [] && Resolves(IndexOf(s), input.workload) && Domain.DomainsOf(s.nodes, key) != {}
    ensures Serving(Hypothetical(s, input, f, t, nodes), key, input.workload) <==>
      AllLabelled(s, key, nodes) && Apart(s.nodes, key, nodes) && Unhindered(s, key, input, f, t, nodes)
  {
    ServingExactly(s, key, input, f, t, nodes);
    forall d { WithstandsIff(s, key, input, f, t, nodes, d); }
    var any :| any in Domain.DomainsOf(s.nodes, key);
    var home := Domain.DomainOfName(s.nodes, key, nodes[0]);
    if home != "" { Domain.NameInBucket(s.nodes, key, nodes[0]); }
  }

  /** When every replica is placed, the answer is what the engine says of the cluster after. */
  lemma PlacedProof(filter: Plugins, s: Snapshot, key: string, input: Input, f: Fix)
    requires !f.architectural && Observable(f) && AllPlaced(JobOf(filter, s, key, input, f), TargetReplicas(input, f))
    ensures ProofOf(filter, s, key, input, f)
         == Proof(true, Serving(After(filter, s, key, input, f), key, input.workload), false)
  {}

  /** Nothing but the placement is in the fix's way. */
  ghost predicate CanServe(filter: Plugins, s: Snapshot, key: string, input: Input, f: Fix)
    requires TargetReplicas(input, f) > 0
  {
    Unhindered(s, key, input, f, Mutated(input.template, f.mutation), Placed(filter, s, key, input, f))
  }

  /** Both proofs in closed form, for a fix placed in full on labelled nodes. */
  lemma PlacedProofIff(filter: Plugins, s: Snapshot, key: string, input: Input, f: Fix)
    requires !f.architectural && Observable(f) && AllPlaced(JobOf(filter, s, key, input, f), TargetReplicas(input, f))
    requires Resolves(IndexOf(s), input.workload) && Domain.DomainsOf(s.nodes, key) != {}
    requires Placed(filter, s, key, input, f) != [] && AllLabelled(s, key, Placed(filter, s, key, input, f))
    ensures ProofOf(filter, s, key, input, f) ==
      Proof(true, Apart(s.nodes, key, Placed(filter, s, key, input, f)) && CanServe(filter, s, key, input, f), false)
  {
    PlacedProof(filter, s, key, input, f);
    ServingIff(s, key, input, f, Mutated(input.template, f.mutation), Placed(filter, s, key, input, f));
  }

  // ---------------------------------------------------------------- budget rungs

  /** Two fixes with the same template and replicas that differ in what they do to the budget
      get the same answer from the engine, as long as the budgets can be read: rungs 5 and 6
      never make a workload survive, or stop surviving. */
  lemma BudgetRungsChangeNothing(s: Snapshot, key: string, input: Input, f: Fix, g: Fix, t: Template,
                                 nodes: seq<string>)
    requires PdbCheck.Parseable(s.budgets)
    requires input.budget.Some? ==> !input.budget.value.selector.Unparseable?
    ensures Serving(Hypothetical(s, input, f, t, nodes), key, input.workload)
       <==> Serving(Hypothetical(s, input, g, t, nodes), key, input.workload)
  {
    var a, b, ref := Hypothetical(s, input, f, t, nodes), Hypothetical(s, input, g, t, nodes), input.workload;
    HypotheticalReadable(s, input, f, t, nodes);
    HypotheticalReadable(s, input, g, t, nodes);
    var pods := Members(IndexOf(a), a.pods, ref);
    if pods != [] {
      forall d | d in Domain.DomainsOf(s.nodes, key)
        ensures ClearedIn(a, key, ref, pods, d) <==> ClearedIn(b, key, ref, pods, d)
      {
        Domain.DomainNonEmpty(s.nodes, key, d);
        SurviveFacts.BudgetsNeverDecide(a, b, key, pods, Replicas(IndexOf(a), ref, |pods|), d);
      }
    }
  }

  lemma HypotheticalReadable(s: Snapshot, input: Input, f: Fix, t: Template, nodes: seq<string>)
    requires PdbCheck.Parseable(s.budgets)
    requires input.budget.Some? ==> !input.budget.value.selector.Unparseable?
    ensures PdbCheck.Parseable(Hypothetical(s, input, f, t, nodes).budgets)
  {
    var kept := Filter(s.budgets, Unrelated(input.workload, WorkloadSelector(input, t)));
    FilterMembers(s.budgets, Unrelated(input.workload, WorkloadSelector(input, t)));
    forall i | 0 <= i < |kept| ensures !kept[i].selector.Unparseable? {
      assert kept[i] in kept;
      var j :| 0 <= j < |s.budgets| && s.budgets[j] == kept[i];
    }
  }
}
