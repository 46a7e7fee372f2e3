/** What the rungs that move replicas deliver: rung 1 under plugins that honour topology spread. */
module RungFacts {
  import opened Basics
  import opened Cluster
  import opened Workload
  import opened Ladder
  import opened Sched
  import opened Verify
  import opened VerifyFacts
  import SchedFacts
  import SpreadPlacement
  import Spread
  import Domain

  // ---------------------------------------------------------------- a placement under spread

  /** The plugins enforce the bound `k` on this simulation, which starts with none of the
      counted pods in place. */
  ghost predicate SpreadRun(job: Job, counted: SpreadPlacement.Counted, k: int) {
    && ProperNodes(job.nodes)
    && SpreadPlacement.Enforces(job, counted, k)
    && SpreadPlacement.CountsOwn(job, counted)
    && SpreadPlacement.StartsEmpty(job, counted)
  }

  lemma SpreadLabels(job: Job, counted: SpreadPlacement.Counted, k: int, r: nat, j: nat)
    requires SpreadRun(job, counted, k) && job.Outcome(r).unschedulable == 0 && j < r
    ensures j < |job.Outcome(r).nodes| && job.DomainOf(job.Outcome(r).nodes[j]) != ""
    ensures job.DomainOf(job.Outcome(r).nodes[j]) in Domain.Values(job.nodes, job.key)
  {
    SchedFacts.ChoiceRecorded(job, r, j);
    SpreadPlacement.ChosenHasRoom(job, counted, k, j);
  }

  lemma SomeReplicaIn(job: Job, r: nat, e: string) returns (i: nat)
    requires Spread.At(job.Outcome(r).domains, e) > 0
    ensures i < |job.Outcome(r).nodes| && job.DomainOf(job.Outcome(r).nodes[i]) == e && e != ""
  {
    SchedFacts.DomainCounts(job, r, e);
    var nodes := job.Outcome(r).nodes;
    var kept := Filter(nodes, SchedFacts.NodeIn(job, e));
    FilterMembers(nodes, SchedFacts.NodeIn(job, e));
    assert kept[0] in kept;
    i :| 0 <= i < |nodes| && nodes[i] == kept[0];
  }

  /** With two values of the label the replicas part; with one they cannot. */
  lemma SpreadApart(job: Job, counted: SpreadPlacement.Counted, k: nat, r: nat)
    requires SpreadRun(job, counted, k) && job.Clean(r) && job.Outcome(r).unschedulable == 0 && k < r
    ensures |job.Outcome(r).nodes| == r
    ensures forall j :: 0 <= j < r ==> job.DomainOf(job.Outcome(r).nodes[j]) != ""
    ensures forall j :: 0 <= j < r ==> job.DomainOf(job.Outcome(r).nodes[j]) in Domain.Values(job.nodes, job.key)
    ensures Apart(job.nodes, job.key, job.Outcome(r).nodes) <==> |Domain.Values(job.nodes, job.key)| >= 2
  {
    var nodes, values := job.Outcome(r).nodes, Domain.Values(job.nodes, job.key);
    SchedFacts.Accounting(job, r);
    forall j: nat | j < r ensures job.DomainOf(nodes[j]) != "" && job.DomainOf(nodes[j]) in values {
      SpreadLabels(job, counted, k, r, j);
    }
    if |values| >= 2 {
      var i := ReplicaElsewhere(job, counted, k, r, job.DomainOf(nodes[0]));
      TwoApart(job.nodes, job.key, nodes, 0, i);
    }
    ApartNeedsTwo(job.nodes, job.key, nodes, values);
  }

  lemma TwoApart(nodes: seq<Node>, key: string, placed: seq<string>, i: nat, j: nat)
    requires i < |placed| && j < |placed|
    requires Domain.DomainOfName(nodes, key, placed[i]) != Domain.DomainOfName(nodes, key, placed[j])
    ensures Apart(nodes, key, placed)
  {}

  lemma ApartNeedsTwo(nodes: seq<Node>, key: string, placed: seq<string>, values: set<string>)
    requires forall j :: 0 <= j < |placed| ==> Domain.DomainOfName(nodes, key, placed[j]) in values
    ensures Apart(nodes, key, placed) ==> |values| >= 2
  {
    if Apart(nodes, key, placed) {
      var i, j :| 0 <= i < |placed| && 0 <= j < |placed|
        && Domain.DomainOfName(nodes, key, placed[i]) != Domain.DomainOfName(nodes, key, placed[j]);
      SubsetSize({Domain.DomainOfName(nodes, key, placed[i]), Domain.DomainOfName(nodes, key, placed[j])}, values);
    }
  }

  lemma ReplicaElsewhere(job: Job, counted: SpreadPlacement.Counted, k: nat, r: nat, d: string) returns (i: nat)
    requires SpreadRun(job, counted, k) && job.Clean(r) && job.Outcome(r).unschedulable == 0 && k < r
    requires |Domain.Values(job.nodes, job.key)| >= 2 && d in Domain.Values(job.nodes, job.key)
    ensures i < |job.Outcome(r).nodes| && job.DomainOf(job.Outcome(r).nodes[i]) != d
  {
    var values := Listing(Domain.Values(job.nodes, job.key));
    ListsSize(values, Domain.Values(job.nodes, job.key));
    SpreadPlacement.SpreadImpliesSurvival(job, counted, k, r, values);
    assert Spread.Elsewhere(job.Outcome(r).domains, values, d);
    var e :| e in values && e != d && Spread.At(job.Outcome(r).domains, e) > 0;
    i := SomeReplicaIn(job, r, e);
  }

  // ---------------------------------------------------------------- from the snapshot

  /** Nobody else is counted: no other workload's pod that the constraint counts sits on a node
      that carries the key. */
  ghost predicate NoneCounted(s: Snapshot, key: string, ref: Ref, counted: SpreadPlacement.Counted) {
    forall p :: InPlace(s, ref, p) && counted(p) ==> Domain.ValueOfName(s.nodes, key, p.spec.nodeName) == ""
  }

  /** That is what starting empty means. */
  lemma StartsEmptyIff(filter: Plugins, s: Snapshot, key: string, input: Input, f: Fix,
                       counted: SpreadPlacement.Counted)
    requires SchedFacts.Seedable(s.pods)
    ensures SpreadPlacement.StartsEmpty(JobOf(filter, s, key, input, f), counted)
       <==> NoneCounted(s, key, input.workload, counted)
  {
    var job := JobOf(filter, s, key, input, f);
    if NoneCounted(s, key, input.workload, counted) {
      forall d | d in Domain.Values(s.nodes, key)
        ensures SpreadPlacement.CountIn(s.nodes, key, job.start, counted, d) == 0
      {
        forall u | u in job.start && counted(job.start[u])
          ensures SpreadPlacement.PodValue(s.nodes, key, job.start[u]) != d
        {
          StartKeys(filter, s, key, input, f, u);
          StartView(filter, s, key, input, f, job.start[u]);
        }
        assert SpreadPlacement.Matching(s.nodes, key, job.start, counted, d) == {};
      }
    }
    if SpreadPlacement.StartsEmpty(job, counted) {
      forall p | InPlace(s, input.workload, p) && counted(p)
        ensures Domain.ValueOfName(s.nodes, key, p.spec.nodeName) == ""
      {
        var d := Domain.ValueOfName(s.nodes, key, p.spec.nodeName);
        StartView(filter, s, key, input, f, p);
        if d != "" {
          Domain.NamedValue(s.nodes, key, p.spec.nodeName);
          SpreadPlacement.CountedThere(s.nodes, key, job.start, counted, p.uid);
        }
      }
    }
  }

  /** The pods the constraint counts when it spreads this workload's replicas. */
  function CountedFor(ref: Ref, c: SpreadConstraint): (f: SpreadPlacement.Counted) {
    SpreadPlacement.CountedBy(PodNamespace(ref.namespace), c)
  }

  /** The plugins honour spread constraints; this one of the template's counts its own pods and,
      when the simulation starts, nobody else's. */
  ghost predicate SpreadHolds(filter: Plugins, s: Snapshot, key: string, input: Input, t: Template,
                              c: SpreadConstraint)
  {
    && SchedFacts.Seedable(s.pods) && ProperNodes(s.nodes)
    && SpreadPlacement.HonoursSpread(filter, s.nodes, key)
    && c in t.spec.spread && Spread.Binds(c, key) && c.selector.Matches(t.labels)
    && NoneCounted(s, key, input.workload, CountedFor(input.workload, c))
  }

  lemma HonouredRun(filter: Plugins, s: Snapshot, key: string, input: Input, f: Fix, c: SpreadConstraint)
    requires SpreadHolds(filter, s, key, input, Mutated(input.template, f.mutation), c)
    ensures SpreadRun(JobOf(filter, s, key, input, f), CountedFor(input.workload, c), c.maxSkew)
  {
    var job := JobOf(filter, s, key, input, f);
    SpreadPlacement.HonouredIsEnforced(job, c);
    StartsEmptyIff(filter, s, key, input, f, CountedFor(input.workload, c));
  }

  // ---------------------------------------------------------------- what the classifier's verdict is worth

  /** A workload placed in full under a spread bound below its replicas is cleared exactly when
      the key's own label takes two values, and nothing else is in the way. */
  lemma SpreadServes(filter: Plugins, s: Snapshot, key: string, input: Input, f: Fix, c: SpreadConstraint)
    requires Resolves(IndexOf(s), input.workload)
    requires AllPlaced(JobOf(filter, s, key, input, f), TargetReplicas(input, f))
    requires SpreadHolds(filter, s, key, input, Mutated(input.template, f.mutation), c)
    requires c.maxSkew < TargetReplicas(input, f)
    ensures Serving(After(filter, s, key, input, f), key, input.workload)
       <==> |Domain.Values(s.nodes, key)| >= 2 && CanServe(filter, s, key, input, f)
  {
    HonouredRun(filter, s, key, input, f, c);
    SpreadPlaced(JobOf(filter, s, key, input, f), CountedFor(input.workload, c), c.maxSkew, TargetReplicas(input, f));
    ServingIff(s, key, input, f, Mutated(input.template, f.mutation), Placed(filter, s, key, input, f));
  }

  lemma SpreadPlaced(job: Job, counted: SpreadPlacement.Counted, k: int, r: nat)
    requires SpreadRun(job, counted, k) && job.Clean(r) && job.Outcome(r).unschedulable == 0 && k < r && r > 0
    ensures var nodes := job.Outcome(r).nodes;
      && nodes != [] && Domain.DomainsOf(job.nodes, job.key) != {}
      && (forall j :: 0 <= j < |nodes| ==> Domain.DomainOfName(job.nodes, job.key, nodes[j]) != "")
      && (Apart(job.nodes, job.key, nodes) <==> |Domain.Values(job.nodes, job.key)| >= 2)
  {
    SchedFacts.ChoiceRecorded(job, r, 0);
    SpreadPlacement.BoundPositive(job, counted, k, 0);
    SpreadApart(job, counted, k, r);
    Domain.ValuesAreDomains(job.nodes, job.key);
    assert job.DomainOf(job.Outcome(r).nodes[0]) in Domain.DomainsOf(job.nodes, job.key);
  }

  lemma EnforcedBound(cs: seq<SpreadConstraint>, key: string, replicas: int, domainCount: int)
    requires Spread.StateOf(cs, key, replicas, domainCount) == Spread.Enforced
    requires !Spread.MinDomainsDecides(cs, key, replicas, domainCount)
    ensures Spread.Tightest(cs, key).Some? && Spread.Tightest(cs, key).value.maxSkew < replicas
  {
    Spread.TightestBinds(cs, key);
  }

  /** So a template the classifier calls enforced, not by minDomains alone. */
  lemma EnforcedSpreadServes(filter: Plugins, s: Snapshot, key: string, input: Input, f: Fix)
    requires Resolves(IndexOf(s), input.workload)
    requires AllPlaced(JobOf(filter, s, key, input, f), TargetReplicas(input, f))
    requires var t := Mutated(input.template, f.mutation);
      && Spread.StateOf(t.spec.spread, key, TargetReplicas(input, f), |Domain.DomainsOf(s.nodes, key)|) ==
        Spread.Enforced
      && !Spread.MinDomainsDecides(t.spec.spread, key, TargetReplicas(input, f), |Domain.DomainsOf(s.nodes, key)|)
      && SpreadHolds(filter, s, key, input, t, Spread.Tightest(t.spec.spread, key).value)
    ensures Serving(After(filter, s, key, input, f), key, input.workload)
       <==> |Domain.Values(s.nodes, key)| >= 2 && CanServe(filter, s, key, input, f)
  {
    var cs := Mutated(input.template, f.mutation).spec.spread;
    EnforcedBound(cs, key, TargetReplicas(input, f), |Domain.DomainsOf(s.nodes, key)|);
    SpreadServes(filter, s, key, input, f, Spread.Tightest(cs, key).value);
  }

  // ---------------------------------------------------------------- rung 1

  function Added(input: Input): (r: SpreadConstraint) {
    SpreadConstraint(1, input.key, DoNotSchedule, None, Parsed(input.selector, []))
  }

  /** The workload's selector selects its own pods, as the API server demands of controllers. */
  predicate SelectsOwn(input: Input) {
    forall k | k in input.selector :: k in input.template.labels && input.template.labels[k] == input.selector[k]
  }

  /** Rung 1's constraint is the only one on its key. */
  lemma AddedAlone(input: Input, spec: PodSpec)
    requires Fires1(input) && spec == Mutated(input.template, AddSpread(input.key, input.selector)).spec
    ensures Added(input) in spec.spread && Spread.Binds(Added(input), input.key)
    ensures forall i :: 0 <= i < |spec.spread| && Spread.Binds(spec.spread[i], input.key) ==>
      spec.spread[i] == Added(input)
  {
    var cs := input.template.spec.spread;
    assert spec.spread == cs + [Added(input)];
    assert spec.spread[|cs|] == Added(input);
    assert forall i :: 0 <= i < |cs| ==> spec.spread[i] == cs[i];
  }

  lemma AddedHolds(filter: Plugins, s: Snapshot, input: Input)
    requires Fires1(input) && SelectsOwn(input)
    requires SchedFacts.Seedable(s.pods) && ProperNodes(s.nodes)
    requires SpreadPlacement.HonoursSpread(filter, s.nodes, input.key)
    requires NoneCounted(s, input.key, input.workload, CountedFor(input.workload, Added(input)))
    ensures SpreadHolds(filter, s, input.key, input, Mutated(input.template, AddSpread(input.key, input.selector)),
                        Added(input))
  {
    AddedAlone(input, Mutated(input.template, AddSpread(input.key, input.selector)).spec);
  }

  /** Rung 1, scheduled in full by plugins that honour spread constraints, for a workload that
      selects its own pods and shares its labels with nobody: it passes both proofs exactly when
      the key's own label takes two values, its claims pin it nowhere and its budget can be read. */
  lemma RungOneSurvives(filter: Plugins, s: Snapshot, input: Input)
    requires Fires1(input) && SelectsOwn(input) && Resolves(IndexOf(s), input.workload)
    requires SchedFacts.Seedable(s.pods) && ProperNodes(s.nodes)
    requires SpreadPlacement.HonoursSpread(filter, s.nodes, input.key)
    requires NoneCounted(s, input.key, input.workload, CountedFor(input.workload, Added(input)))
    requires AllPlaced(JobOf(filter, s, input.key, input, FixOf(input, 1)), input.replicas)
    ensures ProofOf(filter, s, input.key, input, FixOf(input, 1)) ==
      Proof(true, |Domain.Values(s.nodes, input.key)| >= 2 &&
        CanServe(filter, s, input.key, input, FixOf(input, 1)), false)
  {
    var f := FixOf(input, 1);
    AddedHolds(filter, s, input);
    SpreadServes(filter, s, input.key, input, f, Added(input));
    PlacedProof(filter, s, input.key, input, f);
  }

  // ---------------------------------------------------------------- rung 4

  ghost predicate Covers(placement: map<string, nat>, domains: seq<string>) {
    forall d :: d in domains ==> Spread.At(placement, d) > 0
  }

  /** One replica in each domain, and the rest in the first. */
  lemma FillDomains(domains: seq<string>, replicas: nat) returns (placement: map<string, nat>)
    requires Spread.Distinct(domains) && 1 <= |domains| <= replicas
    ensures Spread.Total(placement, domains) == replicas && Covers(placement, domains)
  {
    placement := OneEach(domains);
    placement := placement[domains[0] := 1 + replicas - |domains|];
    FirstRaised(OneEach(domains), domains, |domains|, 1 + replicas - |domains|);
    OnesTotal(OneEach(domains), domains);
    assert domains[..|domains|] == domains;
  }

  function OneEach(domains: seq<string>): (r: map<string, nat>) { map d | d in domains :: 1 }

  lemma {:induction false} OnesTotal(m: map<string, nat>, domains: seq<string>)
    requires forall d :: d in domains ==> Spread.At(m, d) == 1
    ensures Spread.Total(m, domains) == |domains|
  {
    if domains != [] { OnesTotal(m, domains[..|domains| - 1]); }
  }

  lemma {:induction false} FirstRaised(m: map<string, nat>, domains: seq<string>, n: nat, k: nat)
    requires Spread.Distinct(domains) && 1 <= n <= |domains| && Spread.At(m, domains[0]) == 1
    ensures Spread.Total(m[domains[0] := k], domains[..n]) == Spread.Total(m, domains[..n]) + k - 1
  {
    assert domains[..n][..n - 1] == domains[..n - 1];
    if n == 1 {
      assert domains[..0] == [];
    } else {
      FirstRaised(m, domains, n - 1, k);
    }
  }

  /** Raising the replicas is offered exactly when some domain goes without whatever the placement,
      and the number proposed is the least for which none need do. */
  lemma RungFourExact(input: Input, fewer: nat)
    requires Spread.Distinct(input.domains) && input.domains != [] && input.replicas >= 0
    ensures Fires4(input) <==>
      forall p: map<string, nat> :: Spread.Total(p, input.domains) == input.replicas ==> !Covers(p, input.domains)
    ensures exists p: map<string, nat> ::
      Spread.Total(p, input.domains) == FixOf(input, 4).replicas && Covers(p, input.domains)
    ensures fewer < FixOf(input, 4).replicas ==>
      forall p: map<string, nat> :: Spread.Total(p, input.domains) == fewer ==> !Covers(p, input.domains)
  {
    forall p: map<string, nat> | Covers(p, input.domains)
      ensures Spread.Total(p, input.domains) >= |input.domains|
    {
      AtLeastOneEach(p, input.domains);
    }
    var filled := FillDomains(input.domains, |input.domains|);
    if input.replicas >= |input.domains| { var enough := FillDomains(input.domains, input.replicas); }
  }

  lemma {:induction false} AtLeastOneEach(p: map<string, nat>, domains: seq<string>)
    requires Covers(p, domains)
    ensures Spread.Total(p, domains) >= |domains|
  {
    if domains != [] {
      assert domains[|domains| - 1] in domains;
      AtLeastOneEach(p, domains[..|domains| - 1]);
    }
  }

  /** Rung 4, scheduled in full by plugins that honour one of the template's own constraints: with a
      replica for each domain it passes both proofs exactly when the key's own label takes two values
      and nothing else is in the way. */
  lemma RungFourSurvives(filter: Plugins, s: Snapshot, input: Input, c: SpreadConstraint)
    requires Fires4(input) && Resolves(IndexOf(s), input.workload)
    requires SpreadHolds(filter, s, input.key, input, input.template, c) && c.maxSkew < |input.domains|
    requires AllPlaced(JobOf(filter, s, input.key, input, FixOf(input, 4)), |input.domains|)
    ensures |Placed(filter, s, input.key, input, FixOf(input, 4))| == |input.domains|
    ensures ProofOf(filter, s, input.key, input, FixOf(input, 4)) ==
      Proof(true, |Domain.Values(s.nodes, input.key)| >= 2 &&
        CanServe(filter, s, input.key, input, FixOf(input, 4)), false)
  {
    var f := FixOf(input, 4);
    SchedFacts.Accounting(JobOf(filter, s, input.key, input, f), |input.domains|);
    SpreadServes(filter, s, input.key, input, f, c);
    PlacedProof(filter, s, input.key, input, f);
  }

  // ---------------------------------------------------------------- on an empty cluster

  /** An empty cluster, but for the workload itself, with some node that carries the key. */
  ghost predicate Deserted(s: Snapshot, input: Input) {
    && SchedFacts.Seedable(s.pods) && ProperNodes(s.nodes)
    && Domain.Values(s.nodes, input.key) != {}
    && forall p :: !InPlace(s, input.workload, p)
  }

  /** The question of rung 1, asked where nothing is in its way. */
  ghost predicate RungOneAsked(s: Snapshot, input: Input, capacity: nat) {
    && Fires1(input) && Deserted(s, input)
    && input.replicas <= capacity && input.template.spec.nodeName == ""
  }

  function Packer(s: Snapshot, input: Input, capacity: nat): (r: Plugins) {
    SpreadPlacement.CapacitySpread(s.nodes, input.key, capacity)
  }

  ghost function RungOneJob(s: Snapshot, input: Input, capacity: nat): (r: Job) {
    JobOf(Packer(s, input, capacity), s, input.key, input, FixOf(input, 1))
  }

  lemma NothingInPlace(filter: Plugins, s: Snapshot, key: string, input: Input, f: Fix)
    requires SchedFacts.Seedable(s.pods) && forall p :: !InPlace(s, input.workload, p)
    ensures JobOf(filter, s, key, input, f).start == map[]
  {
    var start := JobOf(filter, s, key, input, f).start;
    forall u ensures u !in start {
      StartKeys(filter, s, key, input, f, u);
      if u in start { StartView(filter, s, key, input, f, start[u]); }
    }
  }

  lemma RungOnePlaced(s: Snapshot, input: Input, capacity: nat)
    requires RungOneAsked(s, input, capacity)
    ensures RungOneJob(s, input, capacity).start == map[]
    ensures SpreadPlacement.SoleConstraint(RungOneJob(s, input, capacity).pod, input.key, Added(input))
    ensures AllPlaced(RungOneJob(s, input, capacity), input.replicas)
  {
    var job := RungOneJob(s, input, capacity);
    NothingInPlace(job.filter, s, input.key, input, FixOf(input, 1));
    AddedAlone(input, job.pod.spec);
    SpreadPlacement.EmptyClusterSchedules(job, capacity, Added(input), input.replicas);
  }

  /** The hypotheses can all be met: there, plugins with room that honour spread constraints place
      the fix, and it passes under exactly the stated conditions. */
  lemma DesertedRungOne(s: Snapshot, input: Input, capacity: nat)
    requires RungOneAsked(s, input, capacity) && SelectsOwn(input) && Resolves(IndexOf(s), input.workload)
    ensures ProofOf(Packer(s, input, capacity), s, input.key, input, FixOf(input, 1)) ==
      Proof(true, && |Domain.Values(s.nodes, input.key)| >= 2
                  && CanServe(Packer(s, input, capacity), s, input.key, input, FixOf(input, 1)), false)
  {
    RungOnePlaced(s, input, capacity);
    SpreadPlacement.CapacitySpreadHonours(s.nodes, input.key, capacity);
    RungOneSurvives(Packer(s, input, capacity), s, input);
  }

  /** A cluster half-way through the change of the zone label. */
  const HALF_MIGRATED :=
    [Node("a", map[Domain.LABEL_ZONE := "a"]), Node("b", map[Domain.LABEL_ZONE_DEPRECATED := "b"])]

  /** Two domains are not two values: the report sees two here, the scheduler only one of them,
      and rung 1 puts every replica there, for every workload. */
  lemma HalfMigratedRungOneFails(s: Snapshot, input: Input, capacity: nat)
    requires RungOneAsked(s, input, capacity) && SelectsOwn(input) && Resolves(IndexOf(s), input.workload)
    requires s.nodes == HALF_MIGRATED && input.key == Domain.LABEL_ZONE
    ensures Domain.DomainsOf(s.nodes, input.key) == {"a", "b"}
    ensures ProofOf(Packer(s, input, capacity), s, input.key, input, FixOf(input, 1)) == Proof(true, false, false)
  {
    HalfMigratedDomains();
    DesertedRungOne(s, input, capacity);
  }

  lemma HalfMigratedDomains()
    ensures Domain.DomainsOf(HALF_MIGRATED, Domain.LABEL_ZONE) == {"a", "b"}
    ensures Domain.Values(HALF_MIGRATED, Domain.LABEL_ZONE) == {"a"}
  {
    var a, b := HALF_MIGRATED[0], HALF_MIGRATED[1];
    assert Domain.LABEL_ZONE != Domain.LABEL_ZONE_DEPRECATED;
    assert Domain.Of(a, Domain.LABEL_ZONE) == Some("a") && Domain.Of(b, Domain.LABEL_ZONE) == Some("b");
    assert Domain.Label(a, Domain.LABEL_ZONE) == Some("a") && Domain.Label(b, Domain.LABEL_ZONE).None?;
    assert a in HALF_MIGRATED;
    forall d ensures d in Domain.DomainsOf(HALF_MIGRATED, Domain.LABEL_ZONE) <==> d in {"a", "b"} {
      Domain.DomainsMembers(HALF_MIGRATED, Domain.LABEL_ZONE, d);
    }
  }

  /** The selector is what it rests on, too: when it misses the workload's own pods, the same
      plugins put every replica on the first node with the label, and proof 2 says so. */
  lemma UnselectedRungOneFails(s: Snapshot, input: Input, capacity: nat)
    requires RungOneAsked(s, input, capacity) && !SelectsOwn(input) && Resolves(IndexOf(s), input.workload)
    ensures ProofOf(Packer(s, input, capacity), s, input.key, input, FixOf(input, 1)) == Proof(true, false, false)
  {
    var job, f := RungOneJob(s, input, capacity), FixOf(input, 1);
    RungOnePlaced(s, input, capacity);
    var m := UnselectedPiles(s, input, capacity);
    PlacedProof(job.filter, s, input.key, input, f);
    Domain.ValuesAreDomains(s.nodes, input.key);
    PiledUp(job.filter, s, input.key, input, f, s.nodes[m].name);
  }

  lemma UnselectedPiles(s: Snapshot, input: Input, capacity: nat) returns (m: nat)
    requires RungOneAsked(s, input, capacity) && !SelectsOwn(input)
    ensures m < |s.nodes|
    ensures var nodes := RungOneJob(s, input, capacity).Outcome(input.replicas).nodes;
      |nodes| == input.replicas && forall i :: 0 <= i < |nodes| ==> nodes[i] == s.nodes[m].name
  {
    var job, r: nat := RungOneJob(s, input, capacity), input.replicas;
    m := FirstLabelled(s.nodes, input.key);
    RungOnePlaced(s, input, capacity);
    SchedFacts.Accounting(job, r);
    forall i: nat | i < r ensures job.Outcome(r).nodes[i] == s.nodes[m].name {
      SpreadPlacement.UncountedPilesUp(job, capacity, Added(input), r, i, m);
      SchedFacts.ChoiceRecorded(job, r, i);
    }
  }

  lemma {:induction false} FirstLabelled(nodes: seq<Node>, key: string) returns (m: nat)
    requires Domain.Values(nodes, key) != {}
    ensures m < |nodes| && Domain.Label(nodes[m], key).Some?
    ensures forall k :: 0 <= k < m ==> Domain.Label(nodes[k], key).None?
  {
    var d :| d in Domain.Values(nodes, key);
    var n :| n in nodes && Domain.Label(n, key) == Some(d);
    if Domain.Label(nodes[0], key).Some? {
      m := 0;
    } else {
      assert n in nodes[1..];
      assert d in Domain.Values(nodes[1..], key);
      m := FirstLabelled(nodes[1..], key);
      m := m + 1;
    }
  }

  /** A resolving workload with every replica on one node is not cleared, in a cluster with domains. */
  lemma PiledUp(filter: Plugins, s: Snapshot, key: string, input: Input, f: Fix, name: string)
    requires Resolves(IndexOf(s), input.workload) && TargetReplicas(input, f) > 0
    requires Domain.DomainsOf(s.nodes, key) != {}
    requires var nodes := Placed(filter, s, key, input, f);
      nodes != [] && forall i :: 0 <= i < |nodes| ==> nodes[i] == name
    ensures !Serving(After(filter, s, key, input, f), key, input.workload)
  {
    ServingIff(s, key, input, f, Mutated(input.template, f.mutation), Placed(filter, s, key, input, f));
  }
}
