/** What a simulated placement guarantees: accounting, the prefix law, acceptance in the right
    view, and rollback for a scheduler built from a snapshot. */
module SchedFacts {
  import opened Basics
  import opened Cluster
  import opened Sched
  import Spread

  // ---------------------------------------------------------------- accounting

  function NodeIn(job: Job, d: string): (f: string -> bool) { (n: string) => job.DomainOf(n) == d }

  /** Every replica is placed or counted as unschedulable, and there is a reason iff something
      was unschedulable. */
  lemma Accounting(job: Job, r: nat)
    ensures |job.Outcome(r).nodes| + job.Outcome(r).unschedulable == r
    ensures job.Outcome(r).reason != "" <==> job.Outcome(r).unschedulable > 0
  {
    var p := (i: nat) => Accounted(job.Outcome(i), i);
    forall i: nat | i < r ensures Carries(p, i) {
      if p(i) { AccountedNext(job, i); }
    }
    Climb(p, r);
  }

  ghost predicate Accounted(p: Placement, r: nat) {
    |p.nodes| + p.unschedulable == r && (p.reason != "" <==> p.unschedulable > 0)
  }

  lemma AccountedNext(job: Job, r: nat)
    requires Accounted(job.Outcome(r), r)
    ensures Accounted(job.Outcome(r + 1), r + 1)
  {}

  // ---------------------------------------------------------------- the reason

  /** The reason for a refusal is the first node's that has one, in snapshot order. */
  ghost predicate FirstToSpeak(f: Plugins, nodes: seq<Node>, view: View, pod: Pod, i: int) {
    && 0 <= i < |nodes| && f.message(view, pod, nodes[i]) != ""
    && forall j :: 0 <= j < i ==> f.message(view, pod, nodes[j]) == ""
  }

  lemma {:induction false} FirstMessageMeans(f: Plugins, nodes: seq<Node>, view: View, pod: Pod)
    ensures forall i :: FirstToSpeak(f, nodes, view, pod, i) ==>
      FirstMessage(f, nodes, view, pod) == f.message(view, pod, nodes[i])
    ensures FirstMessage(f, nodes, view, pod) == NO_NODE
         || exists i :: FirstToSpeak(f, nodes, view, pod, i)
  {
    if nodes != [] && f.message(view, pod, nodes[0]) == "" {
      FirstMessageMeans(f, nodes[1..], view, pod);
      forall i | FirstToSpeak(f, nodes, view, pod, i)
        ensures FirstMessage(f, nodes, view, pod) == f.message(view, pod, nodes[i])
      {
        assert FirstToSpeak(f, nodes[1..], view, pod, i - 1);
      }
      if i :| FirstToSpeak(f, nodes[1..], view, pod, i) { assert FirstToSpeak(f, nodes, view, pod, i + 1); }
    } else if nodes != [] {
      assert FirstToSpeak(f, nodes, view, pod, 0);
    }
  }

  /** The reason reported for a placement is that of its first refused replica. */
  ghost predicate SpeaksFor(job: Job, i: nat, r: nat) {
    i < r ==> job.Outcome(r).reason == FirstMessage(job.filter, job.nodes, job.ViewAt(i), Sim(job.pod, i))
  }

  ghost function SpokenFor(job: Job, i: nat): (f: nat -> bool) { (r: nat) => SpeaksFor(job, i, r) }

  lemma ReasonMeans(job: Job, r: nat, i: nat)
    requires i < r && job.ChoiceAt(i).None? && forall j: nat :: j < i ==> job.ChoiceAt(j).Some?
    ensures job.Outcome(r).reason == FirstMessage(job.filter, job.nodes, job.ViewAt(i), Sim(job.pod, i))
  {
    NoneRefused(job, i);
    forall k: nat | k < r ensures Carries(SpokenFor(job, i), k) { ReasonNext(job, i, k); }
    Climb(SpokenFor(job, i), r);
    assert SpeaksFor(job, i, r);
  }

  ghost predicate Silent(job: Job, r: nat) { job.Outcome(r).reason == "" }

  ghost function SilentUpTo(job: Job): (f: nat -> bool) { (r: nat) => Silent(job, r) }

  lemma NoneRefused(job: Job, i: nat)
    requires forall j: nat :: j < i ==> job.ChoiceAt(j).Some?
    ensures Silent(job, i)
  {
    forall k: nat | k < i ensures Carries(SilentUpTo(job), k) {}
    Climb(SilentUpTo(job), i);
    assert SilentUpTo(job)(i);
  }

  lemma ReasonNext(job: Job, i: nat, r: nat)
    requires job.ChoiceAt(i).None? && Silent(job, i)
    ensures Carries(SpokenFor(job, i), r)
  {}

  /** The tally agrees with the list of nodes. */
  ghost predicate Tallied(job: Job, nodes: seq<string>, domains: map<string, nat>, d: string) {
    Spread.At(domains, d) == if d == "" then 0 else |Filter(nodes, NodeIn(job, d))|
  }

  lemma TallyStep(job: Job, nodes: seq<string>, domains: map<string, nat>, n: string, d: string)
    requires Tallied(job, nodes, domains, d)
    ensures Tallied(job, nodes + [n], if job.DomainOf(n) == "" then domains else Tally(domains, job.DomainOf(n)), d)
  {
    FilterAppend(nodes, n, NodeIn(job, d));
  }

  /** The domain counts are exactly the chosen nodes of each domain; unlabelled nodes count
      nowhere. */
  lemma DomainCounts(job: Job, r: nat, d: string)
    ensures Tallied(job, job.Outcome(r).nodes, job.Outcome(r).domains, d)
  {
    AllTallied(job, r, d);
  }

  lemma AllTallied(job: Job, r: nat, d: string)
    ensures TalliedAt(job, d, r)
  {
    NothingTallied(job, d);
    forall i: nat | i < r ensures Carries(TalliedUpTo(job, d), i) { TallyCarries(job, d, i); }
    Climb(TalliedUpTo(job, d), r);
  }

  ghost predicate TalliedAt(job: Job, d: string, r: nat) {
    Tallied(job, job.Outcome(r).nodes, job.Outcome(r).domains, d)
  }

  ghost function TalliedUpTo(job: Job, d: string): (f: nat -> bool) { (i: nat) => TalliedAt(job, d, i) }

  lemma NothingTallied(job: Job, d: string)
    ensures TalliedUpTo(job, d)(0)
  {}

  lemma TallyCarries(job: Job, d: string, r: nat)
    ensures Carries(TalliedUpTo(job, d), r)
  {
    if TalliedAt(job, d, r) { CountedNext(job, r, d); }
  }

  lemma CountedNext(job: Job, r: nat, d: string)
    requires TalliedAt(job, d, r)
    ensures TalliedAt(job, d, r + 1)
  {
    if job.ChoiceAt(r).Some? {
      TallyStep(job, job.Outcome(r).nodes, job.Outcome(r).domains, job.ChoiceAt(r).value, d);
    }
  }

  /** One more replica adds its node, or one refusal. */
  lemma OutcomeStep(job: Job, r: nat)
    ensures job.Outcome(r + 1).nodes ==
      job.Outcome(r).nodes + (if job.ChoiceAt(r).Some? then [job.ChoiceAt(r).value] else [])
    ensures job.Outcome(r + 1).unschedulable == job.Outcome(r).unschedulable + (if job.ChoiceAt(r).Some? then 0 else 1)
  {}

  ghost predicate Extends(a: Placement, b: Placement) { a.nodes <= b.nodes && a.unschedulable <= b.unschedulable }

  ghost function Extending(job: Job, q: nat): (f: nat -> bool) { (r: nat) => Extends(job.Outcome(q), job.Outcome(r)) }

  lemma ExtendCarries(job: Job, q: nat, r: nat)
    ensures Carries(Extending(job, q), r)
  {
    OutcomeStep(job, r);
  }

  /** Asking for more replicas never moves the earlier ones. */
  lemma PrefixLaw(job: Job, q: nat, r: nat)
    requires q <= r
    ensures job.Outcome(q).nodes <= job.Outcome(r).nodes
    ensures job.Outcome(q).unschedulable <= job.Outcome(r).unschedulable
  {
    forall k: nat | q <= k < r ensures Carries(Extending(job, q), k) { ExtendCarries(job, q, k); }
    ClimbFrom(Extending(job, q), q, r);
    assert Extends(job.Outcome(q), job.Outcome(r));
  }

  /** The plugins look at what the candidate is, not at what it is called. */
  ghost predicate IgnoresIdentity(f: Plugins) {
    forall view, p: Pod, name, uid, n :: f.accepts(view, p.(name := name, uid := uid), n) == f.accepts(view, p, n)
  }

  lemma {:induction false} SameRefusal(f: Plugins, nodes: seq<Node>, view: View, pod: Pod, i: nat, j: nat)
    requires IgnoresIdentity(f)
    ensures FirstNode(f, nodes, view, Sim(pod, i)) == FirstNode(f, nodes, view, Sim(pod, j))
  {
    if nodes != [] {
      var p, q := Sim(pod, i), Sim(pod, j);
      assert q == p.(name := q.name, uid := q.uid);
      SameRefusal(f, nodes[1..], view, pod, i, j);
    }
  }

  lemma RefusedNext(job: Job, j: nat)
    requires IgnoresIdentity(job.filter) && job.ChoiceAt(j).None?
    ensures job.ViewAt(j + 1) == job.ViewAt(j) && job.ChoiceAt(j + 1).None?
    ensures job.Outcome(j + 1).nodes == job.Outcome(j).nodes
  {
    SameRefusal(job.filter, job.nodes, job.ViewAt(j), job.pod, j, j + 1);
  }

  ghost predicate StillRefused(job: Job, view: View, nodes: seq<string>, j: nat) {
    job.ViewAt(j) == view && job.ChoiceAt(j).None? && job.Outcome(j).nodes == nodes
  }

  lemma StillNext(job: Job, view: View, nodes: seq<string>, j: nat)
    requires IgnoresIdentity(job.filter) && StillRefused(job, view, nodes, j)
    ensures StillRefused(job, view, nodes, j + 1)
  {
    RefusedNext(job, j);
  }

  ghost function RefusedLike(job: Job, view: View, nodes: seq<string>): (f: nat -> bool) {
    (j: nat) => StillRefused(job, view, nodes, j)
  }

  lemma RefusalCarries(job: Job, view: View, nodes: seq<string>, j: nat)
    requires IgnoresIdentity(job.filter)
    ensures Carries(RefusedLike(job, view, nodes), j)
  {
    if StillRefused(job, view, nodes, j) { StillNext(job, view, nodes, j); }
  }

  lemma StillAfter(job: Job, view: View, nodes: seq<string>, i: nat, j: nat)
    requires IgnoresIdentity(job.filter) && StillRefused(job, view, nodes, i) && i <= j
    ensures StillRefused(job, view, nodes, j)
  {
    var p := RefusedLike(job, view, nodes);
    forall k: nat | i <= k < j ensures Carries(p, k) { RefusalCarries(job, view, nodes, k); }
    ClimbFrom(p, i, j);
  }

  /** After one refusal nothing changes any more: all later replicas are refused. */
  lemma RefusalSticks(job: Job, i: nat, j: nat)
    requires IgnoresIdentity(job.filter) && job.ChoiceAt(i).None? && i <= j
    ensures job.ViewAt(j) == job.ViewAt(i) && job.ChoiceAt(j).None?
    ensures job.Outcome(j).nodes == job.Outcome(i).nodes
  {
    StillAfter(job, job.ViewAt(i), job.Outcome(i).nodes, i, j);
  }

  // ---------------------------------------------------------------- acceptance

  /** The plugins accept `node`, and accept no node before it. */
  ghost predicate FirstAccepted(f: Plugins, nodes: seq<Node>, view: View, pod: Pod, m: nat) {
    m < |nodes| && f.accepts(view, pod, nodes[m]) && forall k :: 0 <= k < m ==> !f.accepts(view, pod, nodes[k])
  }

  lemma {:induction false} FirstNodeMeans(f: Plugins, nodes: seq<Node>, view: View, pod: Pod) returns (m: nat)
    requires FirstNode(f, nodes, view, pod).Some?
    ensures FirstAccepted(f, nodes, view, pod, m) && FirstNode(f, nodes, view, pod) == Some(nodes[m].name)
  {
    if f.accepts(view, pod, nodes[0]) {
      m := 0;
    } else {
      var k := FirstNodeMeans(f, nodes[1..], view, pod);
      m := k + 1;
      forall j | 0 <= j < m ensures !f.accepts(view, pod, nodes[j]) {
        if j > 0 { assert nodes[1..][j - 1] == nodes[j]; }
      }
    }
  }

  lemma {:induction false} NoneMeans(f: Plugins, nodes: seq<Node>, view: View, pod: Pod)
    ensures FirstNode(f, nodes, view, pod).None? <==> forall m :: 0 <= m < |nodes| ==> !f.accepts(view, pod, nodes[m])
  {
    if nodes != [] {
      NoneMeans(f, nodes[1..], view, pod);
      assert forall m :: 1 <= m < |nodes| ==> nodes[m] == nodes[1..][m - 1];
    }
  }

  ghost function Outcomes(job: Job): (f: nat -> Placement) { (i: nat) => job.Outcome(i) }
  ghost function Choices(job: Job): (f: nat -> Option<string>) { (i: nat) => job.ChoiceAt(i) }

  ghost predicate Advances(f: nat -> Placement, c: nat -> Option<string>, i: nat) {
    && f(i + 1).nodes == f(i).nodes + (if c(i).Some? then [c(i).value] else [])
    && f(i + 1).unschedulable == f(i).unschedulable + (if c(i).Some? then 0 else 1)
  }

  lemma OutcomeAdvances(job: Job, i: nat)
    ensures Advances(Outcomes(job), Choices(job), i)
  {
    OutcomeStep(job, i);
  }

  /** Without a refusal, the list of nodes is the list of choices. */
  lemma {:induction false} AllRecorded(f: nat -> Placement, c: nat -> Option<string>, r: nat)
    requires f(0).nodes == [] && f(r).unschedulable == 0
    requires forall i: nat {:trigger Advances(f, c, i)} :: i < r ==> Advances(f, c, i)
    ensures |f(r).nodes| == r && forall k: nat :: k < r ==> c(k) == Some(f(r).nodes[k])
  {
    if r > 0 {
      assert Advances(f, c, r - 1);
      AllRecorded(f, c, r - 1);
    }
  }

  lemma ChoiceRecorded(job: Job, r: nat, k: nat)
    requires job.Outcome(r).unschedulable == 0 && k < r
    ensures |job.Outcome(r).nodes| == r && job.ChoiceAt(k) == Some(job.Outcome(r).nodes[k])
  {
    var f, c := Outcomes(job), Choices(job);
    forall i: nat | i < r ensures Advances(f, c, i) { OutcomeAdvances(job, i); }
    AllRecorded(f, c, r);
    assert c(k) == job.ChoiceAt(k);
  }

  /** When nothing was unschedulable, replica `k` sits on the k-th node of the answer, the first
      one accepted in the view that already holds the replicas before it. */
  lemma EveryReplicaAccepted(job: Job, r: nat, k: nat) returns (m: nat)
    requires job.Outcome(r).unschedulable == 0 && k < r
    ensures |job.Outcome(r).nodes| == r && job.ChoiceAt(k) == Some(job.Outcome(r).nodes[k])
    ensures FirstAccepted(job.filter, job.nodes, job.ViewAt(k), Sim(job.pod, k), m)
    ensures job.nodes[m].name == job.Outcome(r).nodes[k]
  {
    ChoiceRecorded(job, r, k);
    m := FirstNodeMeans(job.filter, job.nodes, job.ViewAt(k), Sim(job.pod, k));
  }

  /** A simulated copy differs from its pod in name, UID and node alone, and the placed one from the
      copy in node and phase alone. */
  lemma CopiesDiffer(pod: Pod, i: nat, node: string)
    ensures var copy := Sim(pod, i);
      && copy.spec.nodeName == ""
      && copy.name == pod.name + "-sim-" + Itoa(i) && copy.uid == pod.uid + "-sim-" + Itoa(i)
      && copy.(name := pod.name, uid := pod.uid, spec := copy.spec.(nodeName := pod.spec.nodeName)) == pod
    ensures var bound := Bound(pod, i, node);
      && bound.spec.nodeName == node && bound.phase == Running
      && bound.(phase := pod.phase, spec := bound.spec.(nodeName := "")) == Sim(pod, i)
  {}

  lemma SimUidInjective(pod: Pod, i: nat, j: nat)
    requires Sim(pod, i).uid == Sim(pod, j).uid
    ensures i == j
  {
    var stem := pod.uid + "-sim-";
    assert Itoa(i) == Sim(pod, i).uid[|stem|..] && Itoa(j) == Sim(pod, j).uid[|stem|..];
    ItoaInjective(i, j);
  }

  /** A pod seen from the start is seen unchanged. */
  lemma {:induction false} ViewKeeps(job: Job, r: nat, u: string)
    requires job.Clean(r) && u in job.start
    ensures u in job.ViewAt(r) && job.ViewAt(r)[u] == job.start[u]
  {
    if r > 0 {
      ViewKeeps(job, r - 1, u);
      assert !job.FailsAt(r - 1);
    }
  }

  /** A placed replica is seen by every later one, bound to its node. */
  lemma {:induction false} ViewHolds(job: Job, r: nat, i: nat)
    requires job.Clean(r) && i < r && job.ChoiceAt(i).Some?
    ensures Sim(job.pod, i).uid in job.ViewAt(r)
    ensures job.ViewAt(r)[Sim(job.pod, i).uid] == Bound(job.pod, i, job.ChoiceAt(i).value)
  {
    if i < r - 1 {
      ViewHolds(job, r - 1, i);
      assert !job.FailsAt(r - 1);
    }
  }

  /** And nothing else is seen: the starting view and the replicas placed so far. */
  lemma {:induction false} ViewOnly(job: Job, r: nat, u: string)
    requires u in job.ViewAt(r)
    ensures u in job.start || exists i :: 0 <= i < r && job.ChoiceAt(i).Some? && Sim(job.pod, i).uid == u
  {
    if r > 0 && u in job.ViewAt(r - 1) {
      ViewOnly(job, r - 1, u);
    }
  }

  // ---------------------------------------------------------------- rollback, from a snapshot

  lemma {:induction false} FilterTwice<T>(xs: seq<T>, f: T -> bool, g: T -> bool)
    ensures Filter(Filter(xs, f), g) == Filter(Filter(xs, g), f)
  {
    if xs != [] {
      var init, last := xs[..|xs| - 1], xs[|xs| - 1];
      FilterTwice(init, f, g);
      FilterConcat(Filter(init, f), [last], g);
      FilterConcat(Filter(init, g), [last], f);
      FilterLone(last, f);
      FilterLone(last, g);
    }
  }

  lemma FilterLone<T>(x: T, f: T -> bool)
    ensures Filter([x], f) == if f(x) then [x] else []
  {
    assert [x][..0] == [];
  }

  lemma {:induction false} FilterDistinct(pods: seq<Pod>, f: Pod -> bool)
    requires DistinctUids(pods)
    ensures DistinctUids(Filter(pods, f))
  {
    if pods != [] {
      var init, last := pods[..|pods| - 1], pods[|pods| - 1];
      FilterDistinct(init, f);
      FilterMembers(init, f);
      var kept := Filter(init, f);
      forall i | 0 <= i < |kept| ensures kept[i].uid != last.uid {
        assert kept[i] in init;
      }
    }
  }

  /** The cluster sched.New accepts: no UID occurs twice among the pods on nodes. */
  ghost predicate Seedable(pods: seq<Pod>) { Addable(map[], Filter(pods, IsAssigned())) }

  lemma SeedHolds(pods: seq<Pod>, p: Pod)
    requires Seedable(pods) && p in pods && p.Assigned()
    ensures p.uid in Seed(pods) && Seed(pods)[p.uid] == p
  {
    var occupying := Filter(pods, IsAssigned());
    FilterMembers(pods, IsAssigned());
    AddableIff(map[], occupying);
    AddAllKeys(map[], occupying, p.uid);
    var i :| 0 <= i < |occupying| && occupying[i] == p;
  }

  /** On a scheduler built from the snapshot, withdrawing any selection of the snapshot's own
      pods succeeds and is undone exactly. */
  lemma SnapshotRollsBack(pods: seq<Pod>, g: Pod -> bool)
    requires Seedable(pods)
    ensures var replacing := Filter(Filter(pods, g), IsAssigned());
      Removable(Seed(pods), replacing) && RollsBack(Seed(pods), replacing)
  {
    var occupying := Filter(pods, IsAssigned());
    var replacing := Filter(Filter(pods, g), IsAssigned());
    FilterTwice(pods, g, IsAssigned());
    AddableIff(map[], occupying);
    FilterDistinct(occupying, g);
    FilterMembers(occupying, g);
    FilterMembers(pods, IsAssigned());
    forall i | 0 <= i < |replacing|
      ensures replacing[i].uid in Seed(pods) && Seed(pods)[replacing[i].uid] == replacing[i]
    {
      assert replacing[i] in replacing;
      SeedHolds(pods, replacing[i]);
    }
    RemovableIff(Seed(pods), replacing);
  }

  /** The same for a single pod of the snapshot. */
  lemma PodRollsBack(pods: seq<Pod>, p: Pod)
    requires Seedable(pods) && p in pods && p.Assigned()
    ensures Filter([p], IsAssigned()) == [p]
    ensures Removable(Seed(pods), [p]) && RollsBack(Seed(pods), [p])
  {
    FilterLone(p, IsAssigned());
    SeedHolds(pods, p);
    LoneRollsBack(Seed(pods), p);
  }

  lemma LoneRollsBack(base: View, p: Pod)
    requires p.uid in base && base[p.uid] == p
    ensures Removable(base, [p]) && RollsBack(base, [p])
  {
    RemovableIff(base, [p]);
  }

  /** Rollback is not unconditional: with the second of two pods missing from the cache, the
      withdrawal stops after removing the first, and the first stays out. */
  lemma HalfWithdrawalSticks(a: Pod, b: Pod)
    requires a.uid != b.uid
    ensures !RollsBack(map[a.uid := a], [a, b])
    ensures StuckAt(map[a.uid := a], [a, b], 1) && RemoveAll(map[a.uid := a], [a, b][..1]) == map[]
  {
    var base := map[a.uid := a];
    assert [a, b][..1] == [a] && [a][..0] == [];
    RemovableIff(base, [a]);
    RemovableIff(base, [a, b]);
    assert [a, b][1] == b && [a, b][0] == a;
  }
}
