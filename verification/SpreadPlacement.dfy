/** Spread implies survival: when the Filter plugins enforce a topology spread constraint, the
    first-fit simulation keeps the skew bound at every step and ends spread over the domains. */
module SpreadPlacement {
  import opened Basics
  import opened Cluster
  import opened Sched
  import opened SchedFacts
  import Domain
  import Spread

  /** The pods a constraint's selector counts. */
  type Counted = Pod -> bool

  /** The value of the topology label on the pod's node. */
  function PodValue(nodes: seq<Node>, key: string, p: Pod): (r: string) {
    Domain.ValueOfName(nodes, key, p.spec.nodeName)
  }

  function Matching(nodes: seq<Node>, key: string, view: View, counted: Counted, d: string): (r: set<string>) {
    set u | u in view && counted(view[u]) && PodValue(nodes, key, view[u]) == d
  }

  /** How many counted pods the plugins see in a domain. */
  function CountIn(nodes: seq<Node>, key: string, view: View, counted: Counted, d: string): (r: nat) {
    |Matching(nodes, key, view, counted, d)|
  }

  /** Placing `more` counted pods in `d` keeps it within `k` of every domain. */
  predicate RoomIn(nodes: seq<Node>, key: string, view: View, counted: Counted, more: nat, k: int, d: string) {
    forall e | e in Domain.Values(nodes, key) ::
      CountIn(nodes, key, view, counted, d) + more - CountIn(nodes, key, view, counted, e) <= k
  }

  lemma CountedThere(nodes: seq<Node>, key: string, view: View, counted: Counted, u: string)
    requires u in view && counted(view[u])
    ensures CountIn(nodes, key, view, counted, PodValue(nodes, key, view[u])) > 0
  {
    assert u in Matching(nodes, key, view, counted, PodValue(nodes, key, view[u]));
  }

  // ---------------------------------------------------------------- the plugins

  /** The pods a constraint of a pod in `namespace` counts. */
  function CountedBy(namespace: string, c: SpreadConstraint): (f: Counted) {
    (p: Pod) => p.namespace == namespace && !p.deleting && c.selector.Matches(p.labels)
  }

  /** The node is labelled and has room for the pod, which counts itself if the selector does. */
  predicate Obeys(nodes: seq<Node>, key: string, view: View, pod: Pod, n: Node, c: SpreadConstraint) {
    && Domain.Label(n, key).Some?
    && RoomIn(nodes, key, view, CountedBy(pod.namespace, c), if c.selector.Matches(pod.labels) then 1 else 0, c.maxSkew,
              Domain.Label(n, key).value)
  }

  ghost predicate AcceptsObeying(f: Plugins, nodes: seq<Node>, key: string, view: View, pod: Pod, n: Node) {
    f.accepts(view, pod, n) ==>
      forall i :: 0 <= i < |pod.spec.spread| && Spread.Binds(pod.spec.spread[i], key) ==>
        Obeys(nodes, key, view, pod, n, pod.spec.spread[i])
  }

  /** The hypothesis on the plugins: a pod's own DoNotSchedule constraints on the key are obeyed,
      whatever the pod and the view. */
  ghost predicate HonoursSpread(f: Plugins, nodes: seq<Node>, key: string) {
    forall view, pod, n :: n in nodes ==> AcceptsObeying(f, nodes, key, view, pod, n)
  }

  // ---------------------------------------------------------------- one simulation

  /** In this view, a candidate of the job is admitted to `n` only if the node is labelled and
      its domain has room. */
  ghost predicate AdmitsOnlyRoom(job: Job, counted: Counted, k: int, view: View, i: nat, n: Node) {
    job.filter.accepts(view, Sim(job.pod, i), n) ==>
      && Domain.Label(n, job.key).Some?
      && RoomIn(job.nodes, job.key, view, counted, 1, k, Domain.Label(n, job.key).value)
  }

  /** The bound is kept in every view. */
  ghost predicate Enforces(job: Job, counted: Counted, k: int) {
    forall view, i: nat, n :: n in job.nodes ==> AdmitsOnlyRoom(job, counted, k, view, i, n)
  }

  /** The job's own replicas are counted. */
  ghost predicate CountsOwn(job: Job, counted: Counted) {
    forall i: nat, n :: counted(Bound(job.pod, i, n))
  }

  /** No counted pod is left in any domain when the simulation starts. */
  ghost predicate StartsEmpty(job: Job, counted: Counted) {
    forall d :: d in Domain.Values(job.nodes, job.key) ==> CountIn(job.nodes, job.key, job.start, counted, d) == 0
  }

  /** Plugins that honour a pod's constraint enforce it in the simulation of that pod, provided
      its selector counts the pod; and exactly then the simulated replicas count. */
  lemma HonouredIsEnforced(job: Job, c: SpreadConstraint)
    requires HonoursSpread(job.filter, job.nodes, job.key)
    requires c in job.pod.spec.spread && Spread.Binds(c, job.key)
    ensures c.selector.Matches(job.pod.labels) ==> Enforces(job, CountedBy(job.pod.namespace, c), c.maxSkew)
    ensures !job.pod.deleting ==>
      (CountsOwn(job, CountedBy(job.pod.namespace, c)) <==> c.selector.Matches(job.pod.labels))
  {
    var counted := CountedBy(job.pod.namespace, c);
    if c.selector.Matches(job.pod.labels) {
      forall view, i: nat, n | n in job.nodes ensures AdmitsOnlyRoom(job, counted, c.maxSkew, view, i, n) {
        assert AcceptsObeying(job.filter, job.nodes, job.key, view, Sim(job.pod, i), n);
        var j :| 0 <= j < |job.pod.spec.spread| && job.pod.spec.spread[j] == c;
        assert Sim(job.pod, i).spec.spread[j] == c;
      }
    }
    if CountsOwn(job, counted) { assert counted(Bound(job.pod, 0, "")); }
  }

  /** Whatever is accepted under a bound needs room for itself. */
  lemma BoundPositive(job: Job, counted: Counted, k: int, i: nat)
    requires ProperNodes(job.nodes) && Enforces(job, counted, k) && job.ChoiceAt(i).Some?
    ensures k >= 1
  {
    ChosenHasRoom(job, counted, k, i);
  }

  lemma CountStep(nodes: seq<Node>, key: string, view: View, counted: Counted, u: string, p: Pod, d: string)
    requires u !in view && counted(p)
    ensures CountIn(nodes, key, view[u := p], counted, d)
         == CountIn(nodes, key, view, counted, d) + (if PodValue(nodes, key, p) == d then 1 else 0)
  {
    var longer := view[u := p];
    var before, after := Matching(nodes, key, view, counted, d), Matching(nodes, key, longer, counted, d);
    var added := if PodValue(nodes, key, p) == d then {u} else {};
    forall v ensures v in after <==> v in before + added {
      if v != u { assert v in longer <==> v in view; }
    }
    assert after == before + added;
  }

  /** A chosen node is labelled and has room. */
  lemma ChosenHasRoom(job: Job, counted: Counted, k: int, i: nat)
    requires ProperNodes(job.nodes) && Enforces(job, counted, k) && job.ChoiceAt(i).Some?
    ensures var d := job.DomainOf(job.ChoiceAt(i).value);
      && d in Domain.Values(job.nodes, job.key) && d != ""
      && Domain.ValueOfName(job.nodes, job.key, job.ChoiceAt(i).value) == d
      && RoomIn(job.nodes, job.key, job.ViewAt(i), counted, 1, k, d)
  {
    var m := FirstNodeMeans(job.filter, job.nodes, job.ViewAt(i), Sim(job.pod, i));
    assert job.nodes[m] in job.nodes;
    assert AdmitsOnlyRoom(job, counted, k, job.ViewAt(i), i, job.nodes[m]);
    Domain.DomainOfNameHit(job.nodes, job.key, m);
    Domain.ValueOfNameHit(job.nodes, job.key, m);
    assert Domain.Label(job.nodes[m], job.key) == Some(job.DomainOf(job.ChoiceAt(i).value));
  }

  /** The tally is what the plugins see, and within the bound. */
  ghost predicate Balanced(job: Job, counted: Counted, k: int, r: nat) {
    var values := Domain.Values(job.nodes, job.key);
    && (forall d :: d in values ==>
          Spread.At(job.Outcome(r).domains, d) == CountIn(job.nodes, job.key, job.ViewAt(r), counted, d))
    && (forall d, e :: d in values && e in values ==>
          Spread.At(job.Outcome(r).domains, d) - Spread.At(job.Outcome(r).domains, e) <= k)
  }

  lemma SkewStep(job: Job, counted: Counted, k: nat, r: nat)
    requires ProperNodes(job.nodes) && Enforces(job, counted, k) && CountsOwn(job, counted)
    requires Balanced(job, counted, k, r) && !job.FailsAt(r)
    ensures Balanced(job, counted, k, r + 1)
  {
    if job.ChoiceAt(r).Some? {
      ChosenHasRoom(job, counted, k, r);
      var n := job.ChoiceAt(r).value;
      forall d | d in Domain.Values(job.nodes, job.key)
        ensures Spread.At(job.Outcome(r + 1).domains, d) == CountIn(job.nodes, job.key, job.ViewAt(r + 1), counted, d)
      {
        CountStep(job.nodes, job.key, job.ViewAt(r), counted, Sim(job.pod, r).uid, Bound(job.pod, r, n), d);
      }
    }
  }

  /** Every step keeps the bound. */
  lemma SkewKept(job: Job, counted: Counted, k: nat, r: nat)
    requires ProperNodes(job.nodes) && job.Clean(r)
    requires Enforces(job, counted, k) && CountsOwn(job, counted) && StartsEmpty(job, counted)
    ensures Balanced(job, counted, k, r)
  {
    var p := BalancedUpTo(job, counted, k);
    BalancedAtStart(job, counted, k);
    forall i: nat | i < r ensures Carries(p, i) { BalanceCarries(job, counted, k, i); }
    Climb(p, r);
  }

  ghost function BalancedUpTo(job: Job, counted: Counted, k: int): (f: nat -> bool) {
    (r: nat) => Balanced(job, counted, k, r)
  }

  lemma BalancedAtStart(job: Job, counted: Counted, k: nat)
    requires StartsEmpty(job, counted)
    ensures BalancedUpTo(job, counted, k)(0)
  {}

  lemma BalanceCarries(job: Job, counted: Counted, k: nat, r: nat)
    requires ProperNodes(job.nodes) && Enforces(job, counted, k) && CountsOwn(job, counted) && !job.FailsAt(r)
    ensures Carries(BalancedUpTo(job, counted, k), r)
  {
    if Balanced(job, counted, k, r) { SkewStep(job, counted, k, r); }
  }

  lemma {:induction false} TotalTally(m: map<string, nat>, values: seq<string>, d: string)
    requires Spread.Distinct(values)
    ensures Spread.Total(Tally(m, d), values) == Spread.Total(m, values) + (if d in values then 1 else 0)
  {
    if values != [] {
      var init, last := values[..|values| - 1], values[|values| - 1];
      assert values == init + [last];
      TotalTally(m, init, d);
    }
  }

  /** All placed replicas are tallied in some domain. */
  lemma {:induction false} TotalPlaced(job: Job, counted: Counted, k: int, r: nat, values: seq<string>)
    requires ProperNodes(job.nodes) && Enforces(job, counted, k)
    requires Lists(values, Domain.Values(job.nodes, job.key))
    ensures Spread.Total(job.Outcome(r).domains, values) == |job.Outcome(r).nodes|
  {
    if r == 0 {
      Spread.TotalZero(map[], values);
    } else {
      TotalPlaced(job, counted, k, r - 1, values);
      if job.ChoiceAt(r - 1).Some? {
        var d := job.DomainOf(job.ChoiceAt(r - 1).value);
        ChosenHasRoom(job, counted, k, r - 1);
        TotalTally(job.Outcome(r - 1).domains, values, d);
      }
    }
  }

  /** The placement's live skew never exceeds the enforced bound. */
  lemma LiveSkewBounded(job: Job, counted: Counted, k: nat, r: nat, values: seq<string>, skew: int)
    requires ProperNodes(job.nodes) && job.Clean(r)
    requires Enforces(job, counted, k) && CountsOwn(job, counted) && StartsEmpty(job, counted)
    requires Lists(values, Domain.Values(job.nodes, job.key))
    requires Spread.IsSkew(job.Outcome(r).domains, values, skew)
    ensures skew <= k && Spread.Within(job.Outcome(r).domains, values, k)
  {
    SkewKept(job, counted, k, r);
  }

  lemma PlacedWithin(job: Job, counted: Counted, k: nat, r: nat, values: seq<string>)
    requires ProperNodes(job.nodes) && job.Clean(r)
    requires Enforces(job, counted, k) && CountsOwn(job, counted) && StartsEmpty(job, counted)
    requires Lists(values, Domain.Values(job.nodes, job.key))
    requires job.Outcome(r).unschedulable == 0
    ensures Spread.Within(job.Outcome(r).domains, values, k)
    ensures Spread.Total(job.Outcome(r).domains, values) == r
  {
    SkewKept(job, counted, k, r);
    TotalPlaced(job, counted, k, r, values);
    Accounting(job, r);
  }

  /** Spread implies survival: with every replica placed, more replicas than the skew allows in
      one place, and two domains to choose from, no single domain holds them all. */
  lemma SpreadImpliesSurvival(job: Job, counted: Counted, k: nat, r: nat, values: seq<string>)
    requires ProperNodes(job.nodes) && job.Clean(r)
    requires Enforces(job, counted, k) && CountsOwn(job, counted) && StartsEmpty(job, counted)
    requires Lists(values, Domain.Values(job.nodes, job.key)) && |values| >= 2
    requires job.Outcome(r).unschedulable == 0 && k < r
    ensures Spread.Spreads(job.Outcome(r).domains, values)
  {
    PlacedWithin(job, counted, k, r, values);
    Spread.TightSkewSpreads(job.Outcome(r).domains, values, k);
  }

  /** Under maxSkew 1 each domain holds its even share, rounded down or up. */
  lemma EvenShares(job: Job, counted: Counted, r: nat, values: seq<string>, d: string)
    requires ProperNodes(job.nodes) && job.Clean(r)
    requires Enforces(job, counted, 1) && CountsOwn(job, counted) && StartsEmpty(job, counted)
    requires Lists(values, Domain.Values(job.nodes, job.key)) && d in values
    requires job.Outcome(r).unschedulable == 0
    ensures || Spread.At(job.Outcome(r).domains, d) == r / |values|
            || Spread.At(job.Outcome(r).domains, d) == (r + |values| - 1) / |values|
  {
    PlacedWithin(job, counted, 1, r, values);
    Spread.EvenSpread(job.Outcome(r).domains, values, d);
  }

  // ---------------------------------------------------------------- a concrete scheduler

  /** Room for `capacity` pods a node, and the pod's own spread constraints on the key. */
  function CapacitySpread(nodes: seq<Node>, key: string, capacity: nat): (r: Plugins) {
    Plugins(
      (view: View, pod: Pod) => true,
      (view: View, pod: Pod, n: Node) =>
        && |set u | u in view && view[u].spec.nodeName == n.name| < capacity
        && forall i | 0 <= i < |pod.spec.spread| && Spread.Binds(pod.spec.spread[i], key) ::
             Obeys(nodes, key, view, pod, n, pod.spec.spread[i]),
      (view: View, pod: Pod, n: Node) => "node(s) didn't match pod topology spread constraints")
  }

  /** It satisfies both hypotheses, so neither is vacuous. */
  lemma CapacitySpreadHonours(nodes: seq<Node>, key: string, capacity: nat)
    ensures HonoursSpread(CapacitySpread(nodes, key, capacity), nodes, key)
    ensures IgnoresIdentity(CapacitySpread(nodes, key, capacity))
  {
    var f := CapacitySpread(nodes, key, capacity);
    forall view, p: Pod, name, uid, n
      ensures f.accepts(view, p.(name := name, uid := uid), n) == f.accepts(view, p, n)
    {
      SameObedience(nodes, key, view, p, name, uid, n);
    }
  }

  lemma SameObedience(nodes: seq<Node>, key: string, view: View, p: Pod, name: string, uid: string, n: Node)
    ensures forall c :: Obeys(nodes, key, view, p.(name := name, uid := uid), n, c) == Obeys(nodes, key, view, p, n, c)
  {}

  /** The pod's one binding constraint on the key. */
  ghost predicate SoleConstraint(pod: Pod, key: string, c: SpreadConstraint) {
    && c in pod.spec.spread && Spread.Binds(c, key)
    && forall i :: 0 <= i < |pod.spec.spread| && Spread.Binds(pod.spec.spread[i], key) ==> pod.spec.spread[i] == c
  }

  lemma {:induction false} LeastCount(nodes: seq<Node>, key: string, view: View, counted: Counted, values: set<string>)
    returns (d: string)
    requires values != {}
    ensures d in values
    ensures forall e :: e in values ==> CountIn(nodes, key, view, counted, d) <= CountIn(nodes, key, view, counted, e)
    decreases values
  {
    var x :| x in values;
    if values - {x} == {} {
      d := x;
      forall e | e in values ensures e == x { assert e !in values - {x}; }
    } else {
      d := LeastCount(nodes, key, view, counted, values - {x});
      if CountIn(nodes, key, view, counted, x) < CountIn(nodes, key, view, counted, d) { d := x; }
    }
  }

  /** While nodes have room, some node is accepted: one of a least loaded domain. */
  lemma SomeNodeAccepts(job: Job, capacity: nat, c: SpreadConstraint, i: nat)
    requires Domain.Values(job.nodes, job.key) != {}
    requires job.filter == CapacitySpread(job.nodes, job.key, capacity)
    requires SoleConstraint(job.pod, job.key, c) && c.maxSkew >= 1
    requires |job.ViewAt(i)| < capacity
    ensures job.ChoiceAt(i).Some?
  {
    var view := job.ViewAt(i);
    var d := LeastCount(job.nodes, job.key, view, CountedBy(job.pod.namespace, c), Domain.Values(job.nodes, job.key));
    var m :| 0 <= m < |job.nodes| && Domain.Label(job.nodes[m], job.key) == Some(d);
    FewOnNode(view, job.nodes[m].name);
    assert Obeys(job.nodes, job.key, view, Sim(job.pod, i), job.nodes[m], c);
    assert job.filter.accepts(view, Sim(job.pod, i), job.nodes[m]);
    NoneMeans(job.filter, job.nodes, view, Sim(job.pod, i));
  }

  lemma ViewGrows(job: Job, i: nat)
    ensures |job.ViewAt(i + 1)| <= |job.ViewAt(i)| + 1
  {
    if job.ChoiceAt(i).Some? && Sim(job.pod, i).uid in job.ViewAt(i) {
      assert job.ViewAt(i + 1).Keys == job.ViewAt(i).Keys;
    }
  }

  /** Replica `i` goes through, provided the view is no fuller than the replicas make it. */
  ghost predicate GoesThrough(job: Job, i: nat) {
    |job.ViewAt(i)| <= i ==> job.ChoiceAt(i).Some? && !job.FailsAt(i)
  }

  /** The first `r` replicas all went through. */
  ghost predicate Going(job: Job, r: nat) {
    job.Clean(r) && job.Outcome(r).unschedulable == 0 && |job.ViewAt(r)| <= r
  }

  lemma GoStep(job: Job, i: nat)
    requires Going(job, i) && GoesThrough(job, i)
    ensures Going(job, i + 1)
  {
    CleanStep(job, i);
    PlacedStep(job, i);
    ViewGrows(job, i);
  }

  lemma AllGoThrough(job: Job, r: nat)
    requires Going(job, 0) && forall i :: 0 <= i < r ==> GoesThrough(job, i)
    ensures Going(job, r)
  {
    var p := (i: nat) => Going(job, i);
    forall i: nat | i < r ensures Carries(p, i) {
      if Going(job, i) { GoStep(job, i); }
    }
    Climb(p, r);
  }

  lemma CleanStep(job: Job, i: nat)
    requires job.Clean(i) && !job.FailsAt(i)
    ensures job.Clean(i + 1)
  {}

  lemma PlacedStep(job: Job, i: nat)
    requires job.ChoiceAt(i).Some?
    ensures job.Outcome(i + 1).unschedulable == job.Outcome(i).unschedulable
  {}

  /** On an empty cluster with room enough, the constraint never blocks. */
  lemma EmptyClusterSchedules(job: Job, capacity: nat, c: SpreadConstraint, r: nat)
    requires Domain.Values(job.nodes, job.key) != {}
    requires job.filter == CapacitySpread(job.nodes, job.key, capacity)
    requires SoleConstraint(job.pod, job.key, c) && c.maxSkew >= 1
    requires job.start == map[] && r <= capacity
    ensures job.Clean(r) && job.Outcome(r).unschedulable == 0
  {
    forall i | 0 <= i < r ensures GoesThrough(job, i) {
      if |job.ViewAt(i)| <= i { SomeNodeAccepts(job, capacity, c, i); }
      SimFresh(job, i);
      AlwaysAdmitted(job, capacity, i);
    }
    AllGoThrough(job, r);
  }

  lemma AlwaysAdmitted(job: Job, capacity: nat, i: nat)
    requires job.filter == CapacitySpread(job.nodes, job.key, capacity)
    ensures job.filter.admits(job.ViewAt(i), Sim(job.pod, i))
  {}

  lemma SimFresh(job: Job, i: nat)
    requires job.start == map[]
    ensures Sim(job.pod, i).uid !in job.ViewAt(i)
  {
    if Sim(job.pod, i).uid in job.ViewAt(i) {
      ViewOnly(job, i, Sim(job.pod, i).uid);
      var j :| 0 <= j < i && Sim(job.pod, j).uid == Sim(job.pod, i).uid;
      SimUidInjective(job.pod, j, i);
    }
  }

  lemma FewOnNode(view: View, name: string)
    ensures |set u | u in view && view[u].spec.nodeName == name| <= |view|
  {
    var there := set u | u in view && view[u].spec.nodeName == name;
    SubsetSize(there, view.Keys);
  }

  /** Put together: on an empty cluster of two or more domains, a pod that counts itself under a
      skew below its replicas is placed in full, and no domain ends up with all of it. */
  lemma EmptyClusterSurvives(job: Job, capacity: nat, c: SpreadConstraint, r: nat, values: seq<string>)
    requires ProperNodes(job.nodes)
    requires job.filter == CapacitySpread(job.nodes, job.key, capacity)
    requires SoleConstraint(job.pod, job.key, c) && c.selector.Matches(job.pod.labels) && !job.pod.deleting
    requires job.start == map[] && 1 <= c.maxSkew < r <= capacity
    requires Lists(values, Domain.Values(job.nodes, job.key)) && |values| >= 2
    ensures job.Clean(r) && job.Outcome(r).unschedulable == 0
    ensures Spread.Spreads(job.Outcome(r).domains, values)
  {
    assert values[0] in values;
    CapacitySpreadHonours(job.nodes, job.key, capacity);
    HonouredIsEnforced(job, c);
    EmptyClusterSchedules(job, capacity, c, r);
    SpreadImpliesSurvival(job, CountedBy(job.pod.namespace, c), c.maxSkew, r, values);
  }

  /** And the selector matters: a pod its constraint does not count is never held back by it, so
      the same plugins put every replica on the first labelled node. */
  lemma UncountedPilesUp(job: Job, capacity: nat, c: SpreadConstraint, r: nat, i: nat, m: nat)
    requires job.filter == CapacitySpread(job.nodes, job.key, capacity)
    requires SoleConstraint(job.pod, job.key, c) && !c.selector.Matches(job.pod.labels) && c.maxSkew >= 0
    requires m < |job.nodes| && Domain.Label(job.nodes[m], job.key).Some?
    requires forall k :: 0 <= k < m ==> Domain.Label(job.nodes[k], job.key).None?
    requires job.start == map[] && i < r <= capacity
    ensures job.ChoiceAt(i) == Some(job.nodes[m].name)
  {
    ViewSize(job, i);
    forall u | u in job.ViewAt(i) ensures job.ViewAt(i)[u].labels == job.pod.labels { ViewLabels(job, i, u); }
    FirstLabelledFits(job.nodes, job.key, capacity, job.ViewAt(i), Sim(job.pod, i), c, m);
    OnlyFirst(job.filter, job.nodes, job.ViewAt(i), Sim(job.pod, i), m);
  }

  /** With nothing counted in view, room is all it takes; without the label nothing helps. */
  lemma FirstLabelledFits(nodes: seq<Node>, key: string, capacity: nat, view: View, pod: Pod, c: SpreadConstraint,
                          m: nat)
    requires SoleConstraint(pod, key, c) && !c.selector.Matches(pod.labels) && c.maxSkew >= 0
    requires forall u :: u in view ==> view[u].labels == pod.labels
    requires m < |nodes| && Domain.Label(nodes[m], key).Some? && |view| < capacity
    requires forall k :: 0 <= k < m ==> Domain.Label(nodes[k], key).None?
    ensures FirstAccepted(CapacitySpread(nodes, key, capacity), nodes, view, pod, m)
  {
    var filter, counted := CapacitySpread(nodes, key, capacity), CountedBy(pod.namespace, c);
    forall d ensures CountIn(nodes, key, view, counted, d) == 0 {
      assert Matching(nodes, key, view, counted, d) == {};
    }
    FewOnNode(view, nodes[m].name);
    assert Obeys(nodes, key, view, pod, nodes[m], c);
    forall k | 0 <= k < m ensures !filter.accepts(view, pod, nodes[k]) {
      var at :| 0 <= at < |pod.spec.spread| && pod.spec.spread[at] == c;
      assert !Obeys(nodes, key, view, pod, nodes[k], pod.spec.spread[at]);
    }
  }

  lemma OnlyFirst(filter: Plugins, nodes: seq<Node>, view: View, pod: Pod, m: nat)
    requires FirstAccepted(filter, nodes, view, pod, m)
    ensures FirstNode(filter, nodes, view, pod) == Some(nodes[m].name)
  {
    NoneMeans(filter, nodes, view, pod);
    var first := FirstNodeMeans(filter, nodes, view, pod);
  }

  lemma ViewSize(job: Job, r: nat)
    requires job.start == map[]
    ensures |job.ViewAt(r)| <= r
  {
    forall i: nat | i < r ensures Carries(SmallViews(job), i) { SmallCarries(job, i); }
    Climb(SmallViews(job), r);
    assert SmallView(job, r);
  }

  ghost predicate SmallView(job: Job, i: nat) { |job.ViewAt(i)| <= i }

  ghost function SmallViews(job: Job): (f: nat -> bool) { (i: nat) => SmallView(job, i) }

  lemma SmallCarries(job: Job, i: nat)
    ensures Carries(SmallViews(job), i)
  {
    ViewGrows(job, i);
  }

  /** From an empty start the view holds replicas only, all with the job's labels. */
  lemma {:induction false} ViewLabels(job: Job, i: nat, u: string)
    requires job.start == map[] && u in job.ViewAt(i)
    ensures job.ViewAt(i)[u].labels == job.pod.labels
  {
    if i > 0 && u in job.ViewAt(i - 1) { ViewLabels(job, i - 1, u); }
  }
}
