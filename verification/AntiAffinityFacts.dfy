/** What rung 7 delivers: under plugins that honour required anti-affinity no two replicas share a
    value of the topology label. */
module AntiAffinityFacts {
  import opened Basics
  import opened Cluster
  import opened Workload
  import opened Ladder
  import opened Sched
  import opened Verify
  import opened VerifyFacts
  import SchedFacts
  import SpreadPlacement
  import RungFacts
  import Domain

  // ---------------------------------------------------------------- the plugins

  function Required(spec: PodSpec): (r: seq<AffinityTerm>) {
    if spec.antiAffinity.Some? then spec.antiAffinity.value.required else []
  }

  /** The pods a term of `pod` keeps away from. */
  predicate Repels(t: AffinityTerm, pod: Pod, other: Pod) {
    && (if t.namespaces == [] then other.namespace == pod.namespace else other.namespace in t.namespaces)
    && t.selector.Matches(other.labels)
  }

  /** The term is about this key, and about nothing this model leaves out. */
  predicate About(t: AffinityTerm, key: string) { t.topologyKey == key && t.rest == "" }

  /** None of those pods shares the node's value of the label; a node without it is free. */
  predicate Clear(nodes: seq<Node>, key: string, view: View, pod: Pod, n: Node, t: AffinityTerm) {
    Domain.Label(n, key).Some? ==>
      forall u | u in view && Repels(t, pod, view[u]) ::
        SpreadPlacement.PodValue(nodes, key, view[u]) != Domain.Label(n, key).value
  }

  predicate AllClear(nodes: seq<Node>, key: string, view: View, pod: Pod, n: Node) {
    forall i | 0 <= i < |Required(pod.spec)| && About(Required(pod.spec)[i], key) ::
      Clear(nodes, key, view, pod, n, Required(pod.spec)[i])
  }

  ghost predicate AcceptsClear(f: Plugins, nodes: seq<Node>, key: string, view: View, pod: Pod, n: Node) {
    f.accepts(view, pod, n) ==> AllClear(nodes, key, view, pod, n)
  }

  /** The hypothesis on the plugins: a pod's own required terms on the key are honoured. */
  ghost predicate HonoursAntiAffinity(f: Plugins, nodes: seq<Node>, key: string) {
    forall view, pod, n :: n in nodes ==> AcceptsClear(f, nodes, key, view, pod, n)
  }

  // ---------------------------------------------------------------- a placement apart

  /** The job's pod has a required term on the key that repels the pod's own kind. */
  ghost predicate RepelsOwn(job: Job, t: AffinityTerm) {
    t in Required(job.pod.spec) && About(t, job.key) && Repels(t, job.pod, job.pod)
  }

  ghost predicate Complete(job: Job, r: nat) {
    ProperNodes(job.nodes) && job.Clean(r) && job.Outcome(r).unschedulable == 0
  }

  /** A chosen node and its label, by name. */
  lemma ChosenValue(job: Job, r: nat, j: nat) returns (m: nat)
    requires Complete(job, r) && j < r
    ensures |job.Outcome(r).nodes| == r && m < |job.nodes| && job.nodes[m].name == job.Outcome(r).nodes[j]
    ensures job.filter.accepts(job.ViewAt(j), Sim(job.pod, j), job.nodes[m])
    ensures Domain.ValueOfName(job.nodes, job.key, job.Outcome(r).nodes[j]) ==
      if Domain.Label(job.nodes[m], job.key).Some? then Domain.Label(job.nodes[m], job.key).value else ""
    ensures Domain.Label(job.nodes[m], job.key).Some? ==>
      job.DomainOf(job.Outcome(r).nodes[j]) == Domain.Label(job.nodes[m], job.key).value
  {
    m := SchedFacts.EveryReplicaAccepted(job, r, j);
    Domain.ValueOfNameHit(job.nodes, job.key, m);
    Domain.DomainOfNameHit(job.nodes, job.key, m);
  }

  /** Of any two replicas, the later one is on a node without the label or with another value. */
  lemma ReplicasApart(job: Job, t: AffinityTerm, r: nat, i: nat, j: nat)
    requires Complete(job, r) && HonoursAntiAffinity(job.filter, job.nodes, job.key) && RepelsOwn(job, t) && i < j < r
    ensures |job.Outcome(r).nodes| == r
    ensures var nodes := job.Outcome(r).nodes;
      Domain.ValueOfName(job.nodes, job.key, nodes[j]) != "" ==>
      Domain.ValueOfName(job.nodes, job.key, nodes[i]) != Domain.ValueOfName(job.nodes, job.key, nodes[j])
  {
    var m := ChosenValue(job, r, j);
    SchedFacts.ChoiceRecorded(job, r, i);
    SchedFacts.ViewHolds(job, j, i);
    if Domain.Label(job.nodes[m], job.key).Some? {
      var view, candidate := job.ViewAt(j), Sim(job.pod, j);
      assert AcceptsClear(job.filter, job.nodes, job.key, view, candidate, job.nodes[m]);
      var at :| 0 <= at < |Required(job.pod.spec)| && Required(job.pod.spec)[at] == t;
      assert Required(candidate.spec)[at] == t;
      assert Clear(job.nodes, job.key, view, candidate, job.nodes[m], t);
      assert Repels(t, candidate, view[Sim(job.pod, i).uid]);
    }
  }

  /** Every node carries the key. */
  ghost predicate AllCarry(nodes: seq<Node>, key: string) {
    forall i :: 0 <= i < |nodes| ==> Domain.Label(nodes[i], key).Some?
  }

  /** Where every node carries the key, all replicas are in domains, and two are never in one. */
  lemma CarriedApart(job: Job, t: AffinityTerm, r: nat)
    requires Complete(job, r) && HonoursAntiAffinity(job.filter, job.nodes, job.key) && RepelsOwn(job, t)
    requires AllCarry(job.nodes, job.key)
    ensures |job.Outcome(r).nodes| == r
    ensures forall j :: 0 <= j < r ==> Domain.DomainOfName(job.nodes, job.key, job.Outcome(r).nodes[j]) != ""
    ensures forall i, j :: 0 <= i < j < r ==>
      Domain.DomainOfName(job.nodes, job.key, job.Outcome(r).nodes[i])
        != Domain.DomainOfName(job.nodes, job.key, job.Outcome(r).nodes[j])
  {
    var nodes := job.Outcome(r).nodes;
    SchedFacts.Accounting(job, r);
    forall j: nat | j < r
      ensures Domain.ValueOfName(job.nodes, job.key, nodes[j]) != ""
      ensures Domain.DomainOfName(job.nodes, job.key, nodes[j]) == Domain.ValueOfName(job.nodes, job.key, nodes[j])
    {
      var m := ChosenValue(job, r, j);
    }
    forall i: nat, j: nat | i < j < r
      ensures Domain.ValueOfName(job.nodes, job.key, nodes[i]) != Domain.ValueOfName(job.nodes, job.key, nodes[j])
    {
      ReplicasApart(job, t, r, i, j);
    }
  }

  // ---------------------------------------------------------------- rung 7

  /** One of the template's terms on the key, required or preferred, selects the template's pods. */
  predicate TermForOwn(input: Input, t: AffinityTerm) {
    && About(t, input.key) && t.selector.Matches(input.template.labels)
    && (t.namespaces == [] || PodNamespace(input.workload.namespace) in t.namespaces)
    && input.template.spec.antiAffinity.Some?
    && (t in input.template.spec.antiAffinity.value.required || t in input.template.spec.antiAffinity.value.preferred)
  }

  lemma PromotedRepels(filter: Plugins, s: Snapshot, input: Input, t: AffinityTerm)
    requires TermForOwn(input, t)
    ensures RepelsOwn(JobOf(filter, s, input.key, input, FixOf(input, 7)), t)
  {
    FilterMembers(input.template.spec.antiAffinity.value.preferred, OnKey(input.key));
  }

  /** Rung 7, scheduled in full where every node carries the key by plugins that honour required
      terms: it passes both proofs exactly when there are two replicas or more, the claims pin the
      workload nowhere and its budget can be read. */
  lemma RungSevenSurvives(filter: Plugins, s: Snapshot, input: Input, t: AffinityTerm)
    requires Fires7(input) && TermForOwn(input, t) && Resolves(IndexOf(s), input.workload)
    requires ProperNodes(s.nodes) && AllCarry(s.nodes, input.key)
    requires HonoursAntiAffinity(filter, s.nodes, input.key)
    requires AllPlaced(JobOf(filter, s, input.key, input, FixOf(input, 7)), input.replicas)
    ensures ProofOf(filter, s, input.key, input, FixOf(input, 7)) ==
      Proof(true, input.replicas >= 2 && CanServe(filter, s, input.key, input, FixOf(input, 7)), false)
  {
    var f := FixOf(input, 7);
    var job := JobOf(filter, s, input.key, input, f);
    PromotedRepels(filter, s, input, t);
    TermPlaced(job, t, input.replicas);
    PlacedProofIff(filter, s, input.key, input, f);
  }

  lemma TermPlaced(job: Job, t: AffinityTerm, r: nat)
    requires Complete(job, r) && HonoursAntiAffinity(job.filter, job.nodes, job.key) && RepelsOwn(job, t)
    requires AllCarry(job.nodes, job.key) && r > 0
    ensures var nodes := job.Outcome(r).nodes;
      && nodes != [] && Domain.DomainsOf(job.nodes, job.key) != {}
      && (forall j :: 0 <= j < |nodes| ==> Domain.DomainOfName(job.nodes, job.key, nodes[j]) != "")
      && (Apart(job.nodes, job.key, nodes) <==> r >= 2)
  {
    CarriedApart(job, t, r);
    CountedApart(job.nodes, job.key, job.Outcome(r).nodes);
  }

  /** Replicas in pairwise different domains are apart as soon as there are two. */
  lemma CountedApart(nodes: seq<Node>, key: string, placed: seq<string>)
    requires placed != []
    requires forall j :: 0 <= j < |placed| ==> Domain.DomainOfName(nodes, key, placed[j]) != ""
    requires forall i, j :: 0 <= i < j < |placed| ==>
      Domain.DomainOfName(nodes, key, placed[i]) != Domain.DomainOfName(nodes, key, placed[j])
    ensures Apart(nodes, key, placed) <==> |placed| >= 2
    ensures Domain.DomainsOf(nodes, key) != {}
  {
    Domain.NameInBucket(nodes, key, placed[0]);
    if |placed| >= 2 { RungFacts.TwoApart(nodes, key, placed, 0, 1); }
  }

  // ---------------------------------------------------------------- where it does, and where it cannot

  /** The workload's pods aside, the cluster is empty. */
  ghost predicate Vacant(s: Snapshot, input: Input) {
    && SchedFacts.Seedable(s.pods) && ProperNodes(s.nodes)
    && input.template.spec.nodeName == ""
    && forall p :: !InPlace(s, input.workload, p)
  }

  /** The plugins that refuse a node only when a required term is not clear. */
  function KeepApart(nodes: seq<Node>, key: string): (r: Plugins) {
    Plugins((view: View, pod: Pod) => true,
            (view: View, pod: Pod, n: Node) => AllClear(nodes, key, view, pod, n),
            (view: View, pod: Pod, n: Node) => "node(s) didn't match pod anti-affinity rules")
  }

  lemma {:induction false} ImageSize(nodes: seq<Node>, key: string, view: View, us: set<string>)
    requires us <= view.Keys
    ensures |set u | u in us :: SpreadPlacement.PodValue(nodes, key, view[u])| <= |us|
  {
    if us != {} {
      var x :| x in us;
      ImageSize(nodes, key, view, us - {x});
      var rest := set u | u in us - {x} :: SpreadPlacement.PodValue(nodes, key, view[u]);
      assert (set u | u in us :: SpreadPlacement.PodValue(nodes, key, view[u]))
        == rest + {SpreadPlacement.PodValue(nodes, key, view[x])};
    }
  }

  /** With fewer pods than values, some value is free. */
  lemma FreeNode(nodes: seq<Node>, key: string, view: View) returns (m: nat)
    requires |view| < |Domain.Values(nodes, key)|
    ensures m < |nodes| && Domain.Label(nodes[m], key).Some?
    ensures forall u :: u in view ==> SpreadPlacement.PodValue(nodes, key, view[u]) != Domain.Label(nodes[m], key).value
  {
    var taken := set u | u in view.Keys :: SpreadPlacement.PodValue(nodes, key, view[u]);
    ImageSize(nodes, key, view, view.Keys);
    if Domain.Values(nodes, key) <= taken { SubsetSize(Domain.Values(nodes, key), taken); }
    var d :| d in Domain.Values(nodes, key) && d !in taken;
    var n :| n in nodes && Domain.Label(n, key) == Some(d);
    m :| 0 <= m < |nodes| && nodes[m] == n;
  }

  lemma FreeGoes(job: Job, i: nat)
    requires job.filter == KeepApart(job.nodes, job.key) && job.start == map[]
    requires i < |Domain.Values(job.nodes, job.key)|
    ensures SpreadPlacement.GoesThrough(job, i)
  {
    SpreadPlacement.SimFresh(job, i);
    assert job.filter.admits(job.ViewAt(i), Sim(job.pod, i));
    if |job.ViewAt(i)| <= i {
      var m := FreeNode(job.nodes, job.key, job.ViewAt(i));
      assert AllClear(job.nodes, job.key, job.ViewAt(i), Sim(job.pod, i), job.nodes[m]);
      SchedFacts.NoneMeans(job.filter, job.nodes, job.ViewAt(i), Sim(job.pod, i));
    }
  }

  /** The hypotheses can be met together: on a vacant cluster with a value for each replica these
      plugins place the fix, and it passes under exactly the stated conditions. */
  lemma VacantRungSeven(s: Snapshot, input: Input, t: AffinityTerm)
    requires Fires7(input) && TermForOwn(input, t) && Resolves(IndexOf(s), input.workload)
    requires Vacant(s, input) && AllCarry(s.nodes, input.key)
    requires 1 <= input.replicas <= |Domain.Values(s.nodes, input.key)|
    ensures ProofOf(KeepApart(s.nodes, input.key), s, input.key, input, FixOf(input, 7)) ==
      Proof(true, && input.replicas >= 2
                  && CanServe(KeepApart(s.nodes, input.key), s, input.key, input, FixOf(input, 7)), false)
  {
    var filter := KeepApart(s.nodes, input.key);
    var job := JobOf(filter, s, input.key, input, FixOf(input, 7));
    RungFacts.NothingInPlace(filter, s, input.key, input, FixOf(input, 7));
    forall i | 0 <= i < input.replicas ensures SpreadPlacement.GoesThrough(job, i) { FreeGoes(job, i); }
    SpreadPlacement.AllGoThrough(job, input.replicas);
    RungSevenSurvives(filter, s, input, t);
  }

  /** Plugins that accept one node only. */
  function OnlyOn(n: Node): (r: Plugins) {
    Plugins((view: View, pod: Pod) => true,
            (view: View, pod: Pod, m: Node) => m == n,
            (view: View, pod: Pod, m: Node) => "node(s) were unschedulable")
  }

  lemma OnlyOnGoes(job: Job, m: nat, i: nat)
    requires m < |job.nodes| && job.filter == OnlyOn(job.nodes[m]) && job.start == map[]
    ensures SpreadPlacement.GoesThrough(job, i) && job.ChoiceAt(i) == Some(job.nodes[m].name)
  {
    SpreadPlacement.SimFresh(job, i);
    assert job.filter.accepts(job.ViewAt(i), Sim(job.pod, i), job.nodes[m]);
    SchedFacts.NoneMeans(job.filter, job.nodes, job.ViewAt(i), Sim(job.pod, i));
    var first := SchedFacts.FirstNodeMeans(job.filter, job.nodes, job.ViewAt(i), Sim(job.pod, i));
  }

  /** A node without the label undoes it: the term does not bind there, so plugins that honour it
      can put every replica on that node, and proof 2 says so. */
  lemma UncarriedRungSevenFails(s: Snapshot, input: Input, m: nat)
    requires Fires7(input) && Resolves(IndexOf(s), input.workload) && Vacant(s, input) && input.replicas >= 1
    requires m < |s.nodes| && Domain.Label(s.nodes[m], input.key).None? && Domain.DomainsOf(s.nodes, input.key) != {}
    ensures HonoursAntiAffinity(OnlyOn(s.nodes[m]), s.nodes, input.key)
    ensures ProofOf(OnlyOn(s.nodes[m]), s, input.key, input, FixOf(input, 7)) == Proof(true, false, false)
  {
    var filter, f := OnlyOn(s.nodes[m]), FixOf(input, 7);
    var job, r: nat := JobOf(filter, s, input.key, input, f), input.replicas;
    RungFacts.NothingInPlace(filter, s, input.key, input, f);
    forall i | 0 <= i < r ensures SpreadPlacement.GoesThrough(job, i) { OnlyOnGoes(job, m, i); }
    SpreadPlacement.AllGoThrough(job, r);
    SchedFacts.Accounting(job, r);
    forall i: nat | i < r ensures job.Outcome(r).nodes[i] == s.nodes[m].name {
      OnlyOnGoes(job, m, i);
      SchedFacts.ChoiceRecorded(job, r, i);
    }
    PlacedProof(filter, s, input.key, input, f);
    RungFacts.PiledUp(filter, s, input.key, input, f, s.nodes[m].name);
  }
}
