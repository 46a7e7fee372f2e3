/** Concrete clusters on which the checks and a drain part ways. */
module DrainExamples {
  import opened Basics
  import opened Cluster
  import opened Sched
  import opened DrainRun
  import opened DrainFacts
  import SchedFacts
  import Survive
  import PdbCheck
  import DrainCheck
  import Domain

  // ---------------------------------------------------------------- a finding that overstates

  function Worker(name: string): (r: Pod) {
    Pod("default", name, name, map[], [], PodSpec("n", [], [], [], [], None), Running, true, false)
  }

  const LONE_NODE := Node("n", map["zone" := "a"])
  const TOLERANT := Budget("default", "web", Parsed(map[], []), Some(Count(1)), None, 0, 0)
  const NOWHERE :=
    Plugins((v: View, p: Pod) => true, (v: View, p: Pod, n: Node) => false, (v: View, p: Pod, n: Node) => "full")

  function Trio(): (r: Snapshot) {
    Snapshot([LONE_NODE], [Worker("x"), Worker("y"), Worker("z")], [TOLERANT], [], [], [], [], [], [], [])
  }

  lemma TrioUids(a: Pod, b: Pod, c: Pod, f: Pod -> bool)
    requires f(a) && f(b) && f(c)
    ensures Uids([a, b, c], f) == {a.uid, b.uid, c.uid}
  {
    UidsAppend([], a, f);
    UidsAppend([a], b, f);
    UidsAppend([a, b], c, f);
    assert [] + [a] == [a] && [a] + [b] == [a, b] && [a, b] + [c] == [a, b, c];
  }

  lemma UidsAppend(pods: seq<Pod>, p: Pod, f: Pod -> bool)
    ensures Uids(pods + [p], f) == Uids(pods, f) + (if f(p) then {p.uid} else {})
  {
    assert (pods + [p])[..|pods|] == pods;
  }

  lemma TrioCovered()
    ensures Covered(Trio(), TOLERANT) == Trio().pods
  {
    forall p | p in Trio().pods ensures PdbCheck.Covers(TOLERANT, p) {
      assert p == Worker(p.name);
    }
    FilterAll(Trio().pods, PdbCheck.CoveredBy(TOLERANT));
  }

  lemma TrioMembers()
    ensures |Covered(Trio(), TOLERANT)| == 3
    ensures Start(Trio(), TOLERANT).members == {"x", "y", "z"} == Start(Trio(), TOLERANT).ready
  {
    TrioCovered();
    TrioUids(Worker("x"), Worker("y"), Worker("z"), IsAssigned());
    TrioUids(Worker("x"), Worker("y"), Worker("z"), IsAvailable());
  }

  lemma SeedableAll(pods: seq<Pod>)
    requires DistinctUids(pods) && forall p :: p in pods ==> p.Assigned()
    ensures SchedFacts.Seedable(pods) && Filter(pods, IsAssigned()) == pods
  {
    FilterAll(pods, IsAssigned());
    AddableIff(map[], pods);
  }

  lemma TrioSeed()
    ensures SchedFacts.Seedable(Trio().pods) && Filter(Trio().pods, IsAssigned()) == Trio().pods
  {
    var pods := Trio().pods;
    assert pods[0].uid == "x" && pods[1].uid == "y" && pods[2].uid == "z";
    SeedableAll(pods);
  }

  lemma TrioView()
    ensures forall p :: p in Trio().pods ==> p.uid in Seed(Trio().pods) && Seed(Trio().pods)[p.uid] == p
    ensures "r" !in Seed(Trio().pods)
  {
    TrioSeed();
    AllSeeded(Trio().pods, "r");
    assert forall i :: 0 <= i < 3 ==> Trio().pods[i].uid != "r";
  }

  lemma AllSeeded(pods: seq<Pod>, u: string)
    requires SchedFacts.Seedable(pods) && Filter(pods, IsAssigned()) == pods
    ensures forall p :: p in pods ==> p.uid in Seed(pods) && Seed(pods)[p.uid] == p
    ensures (forall i :: 0 <= i < |pods| ==> pods[i].uid != u) ==> u !in Seed(pods)
  {
    AddAllKeys(map[], pods, u);
    FilterMembers(pods, IsAssigned());
    forall p | p in pods ensures p.uid in Seed(pods) && Seed(pods)[p.uid] == p { SchedFacts.SeedHolds(pods, p); }
  }

  /** Each of the three is seen in the zone. */
  lemma TrioHome(p: Pod)
    requires p in Trio().pods
    ensures InDomain(DrainOf(NOWHERE, Trio(), "zone", "a", TOLERANT), Start(Trio(), TOLERANT), p.uid)
  {
    TrioSeed();
    NodeHome(p);
    SeenAt(NOWHERE, Trio(), "zone", "a", TOLERANT, p);
  }

  lemma NodeHome(p: Pod)
    requires p.spec.nodeName == "n"
    ensures Survive.DomainOfPod(Trio(), "zone", p) == "a"
  {
    Domain.DomainOfNameHit(Trio().nodes, "zone", 0);
    assert Trio().nodes[0].name == "n";
  }

  lemma TrioStrikes()
    ensures Strikes(NOWHERE, Trio(), "zone", "a", TOLERANT, Worker("x"), Evict("x", "r", "r"))
  {
    TrioMembers();
    TrioCovered();
    TrioView();
    assert Worker("x") == Trio().pods[0];
    TrioHome(Trio().pods[0]);
    assert |{"x", "y", "z"}| == 3;
  }

  lemma TrioListed()
    ensures DrainCheck.Flagged(NOWHERE, Trio(), "zone", "a", Ref("Pod", "default", "x"), TOLERANT, Worker("x"))
  {
    TrioResidents();
    TrioChecked();
    assert StrLe("x", "x");
    assert DrainCheck.IsVictim([Worker("x")], Worker("x"));
  }

  lemma TrioResidents()
    ensures DrainCheck.Residents(Trio(), "zone", "a", Ref("Pod", "default", "x")) == [Worker("x")]
  {
    WorkerResides("x");
    WorkerResides("y");
    WorkerResides("z");
    assert "x" != "y" && "x" != "z";
    OnlyFirst(Worker("x"), Worker("y"), Worker("z"),
              DrainCheck.Resident(Trio(), "zone", "a", Ref("Pod", "default", "x")));
  }

  lemma WorkerResides(name: string)
    ensures DrainCheck.Resides(Trio(), "zone", "a", Ref("Pod", "default", "x"), Worker(name)) <==> name == "x"
  {
    NodeHome(Worker(name));
  }

  lemma OnlyFirst(a: Pod, b: Pod, c: Pod, f: Pod -> bool)
    requires f(a) && !f(b) && !f(c)
    ensures Filter([a, b, c], f) == [a]
  {
    FilterAppend([], a, f);
    FilterAppend([a], b, f);
    FilterAppend([a, b], c, f);
    assert [] + [a] == [a] && [a] + [b] == [a, b] && [a, b] + [c] == [a, b, c];
  }

  lemma TrioChecked()
    ensures DrainCheck.Checked(Trio(), [Worker("x")]) == Some(TOLERANT)
  {
    var pods := Trio().pods;
    forall p | p in pods ensures PdbCheck.Covers(TOLERANT, p) { assert p == Worker(p.name); }
    assert pods[0].Key() == "default/x" && pods[1].Key() == "default/y" && pods[2].Key() == "default/z";
    PdbCheck.LoneBlock(TOLERANT, pods);
    assert !PdbCheck.Forbids(TOLERANT, 3);
  }

  /** Three replicas in one zone, a budget that keeps one, and no other node: the first is listed,
      yet another can be evicted right after it. */
  lemma TolerantBudgetGoesOn()
    ensures DrainCheck.Flagged(NOWHERE, Trio(), "zone", "a", Ref("Pod", "default", "x"), TOLERANT, Worker("x"))
    ensures Strikes(NOWHERE, Trio(), "zone", "a", TOLERANT, Worker("x"), Evict("x", "r", "r"))
    ensures EvictsAgain(DrainOf(NOWHERE, Trio(), "zone", "a", TOLERANT),
                        Struck(NOWHERE, Trio(), "zone", "a", TOLERANT, Evict("x", "r", "r")))
  {
    TrioListed();
    TrioStrikes();
    TrioSeed();
    TrioMembers();
    TrioHome(Trio().pods[1]);
    FindingExactly(NOWHERE, Trio(), "zone", "a", TOLERANT, Worker("x"), Evict("x", "r", "r"));
  }

  // ---------------------------------------------------------------- one pod, one budget

  function Lone(b: Budget): (r: Snapshot) { Snapshot([LONE_NODE], [Worker("x")], [b], [], [], [], [], [], [], []) }

  /** A budget for every pod of the namespace. */
  function ForAll(min: Option<Amount>, max: Option<Amount>, generation: int): (r: Budget) {
    Budget("default", "web", Parsed(map[], []), min, max, generation, 0)
  }

  lemma LoneCovered(b: Budget)
    requires b.namespace == "default" && b.selector == Parsed(map[], [])
    ensures PdbCheck.CoversEach(b, [Worker("x")]) && Covered(Lone(b), b) == [Worker("x")]
  {
    FilterAll([Worker("x")], PdbCheck.CoveredBy(b));
  }

  lemma LonePlaced(b: Budget)
    requires Covered(Lone(b), b) == [Worker("x")]
    ensures SchedFacts.Seedable(Lone(b).pods) && AllPlaced(Lone(b), "zone", b)
  {
    LoneHome(b);
    OnePlaced(Lone(b), "zone", b, Worker("x"));
    SeedableAll([Worker("x")]);
  }

  lemma LoneHome(b: Budget)
    ensures Worker("x").Assigned() && Survive.DomainOfPod(Lone(b), "zone", Worker("x")) == "a"
  {
    Domain.DomainOfNameHit(Lone(b).nodes, "zone", 0);
    assert Lone(b).nodes[0].name == "n";
  }

  /** A stale budget is blocked, and a drain can evict its pod. */
  lemma StaleBudgetEvicts(filter: Plugins)
    ensures var b := ForAll(Some(Count(0)), None, 1);
      PdbCheck.BlockOf([b], Lone(b).pods, b) == PdbCheck.StaleStatus && CanEvict(filter, Lone(b), "zone", b)
  {
    var b := ForAll(Some(Count(0)), None, 1);
    LoneCovered(b);
    LonePlaced(b);
    PdbCheck.LoneBlock(b, [Worker("x")]);
    CanEvictIff(filter, Lone(b), "zone", b);
  }

  /** With both fields set the check says "never" while the engine would keep nothing. */
  lemma BothFieldsDisagree()
    ensures var b := ForAll(Some(Count(0)), Some(Count(0)), 0);
      && PdbCheck.BlockOf([b], Lone(b).pods, b) == PdbCheck.NeverSatisfiable
      && PdbCheck.DesiredAvailable([b], Worker("x"), 1) == PdbCheck.Keep(0)
  {
    var b := ForAll(Some(Count(0)), Some(Count(0)), 0);
    LoneCovered(b);
    PdbCheck.LoneBlock(b, [Worker("x")]);
  }
}
