/** The drain check looks up the budget of one replica and probes another: when they agree. */
module DrainProbe {
  import opened Basics
  import opened Cluster
  import opened Workload
  import opened DrainCheck
  import Sched
  import Survive
  import PdbCheck
  import DrainExamples
  import Domain

  // ---------------------------------------------------------------- exactly when

  lemma {:induction false} PdbForMeans(budgets: seq<Budget>, p: Pod)
    ensures PdbFor(budgets, p).Some? ==> PdbFor(budgets, p).value in budgets && Selects(PdbFor(budgets, p).value, p)
    ensures PdbFor(budgets, p).None? ==> forall b :: b in budgets ==> !Selects(b, p)
  {
    if budgets != [] { PdbForMeans(budgets[1..], p); }
  }

  lemma {:induction false} BlockUnderUnique(all: seq<Budget>, pods: seq<Pod>, budgets: seq<Budget>, k: nat)
    requires PdbCheck.UniqueKeys(budgets) && k < |budgets|
    ensures BlockUnder(all, pods, budgets, budgets[k].Key()) == PdbCheck.BlockOf(all, pods, budgets[k])
  {
    if k < |budgets| - 1 { BlockUnderUnique(all, pods, budgets[..|budgets| - 1], k); }
  }

  /** An unblocked budget shares its pods with no other. */
  lemma UnblockedAlone(s: Snapshot, j: nat, k: nat, p: Pod)
    requires PdbCheck.UniqueKeys(s.budgets) && j < |s.budgets| && k < |s.budgets| && p in s.pods
    requires PdbCheck.BlockOf(s.budgets, s.pods, s.budgets[k]) == PdbCheck.Unblocked
    requires PdbCheck.Covers(s.budgets[j], p) && PdbCheck.Covers(s.budgets[k], p)
    ensures j == k
  {
    var matched := PdbCheck.Matched(s.budgets, s.pods, s.budgets[k].Key());
    PdbCheck.MatchedUnique(s.budgets, s.pods, k);
    FilterMembers(s.pods, PdbCheck.CoveredBy(s.budgets[k]));
    var i :| 0 <= i < |matched| && matched[i] == p;
    assert PdbCheck.Selections(s.budgets, s.pods, matched[i].Key()) <= 1;
    if j < k { PdbCheck.SelectionsAtLeast(s.budgets, s.pods, p, j, k); }
    if k < j { PdbCheck.SelectionsAtLeast(s.budgets, s.pods, p, k, j); }
  }

  /** The budget of a finding is one of the cluster's, and passes the static check. */
  lemma CheckedBudget(s: Snapshot, pods: seq<Pod>, b: Budget) returns (k: nat)
    requires PdbCheck.UniqueKeys(s.budgets) && pods != [] && Checked(s, pods) == Some(b)
    ensures k < |s.budgets| && s.budgets[k] == b
    ensures PdbCheck.BlockOf(s.budgets, s.pods, b) == PdbCheck.Unblocked
  {
    PdbForMeans(s.budgets, pods[0]);
    k :| 0 <= k < |s.budgets| && s.budgets[k] == b;
    BlockUnderUnique(s.budgets, s.pods, s.budgets, k);
  }

  /** The budget of a finding covers the replica that was probed exactly when looking up the
      probed replica's own budget would have found the same one. */
  lemma CoversProbe(filter: Sched.Plugins, s: Snapshot, key: string, d: string, ref: Ref, b: Budget, victim: Pod)
    requires PdbCheck.UniqueKeys(s.budgets) && Flagged(filter, s, key, d, ref, b, victim)
    ensures PdbCheck.Covers(b, victim) <==> PdbFor(s.budgets, victim) == Some(b)
    ensures Selects(b, victim) <==> PdbFor(s.budgets, victim) == Some(b)
  {
    var k := CheckedBudget(s, Residents(s, key, d, ref), b);
    FilterMembers(s.pods, Resident(s, key, d, ref));
    assert Resides(s, key, d, ref, victim);
    PdbForMeans(s.budgets, victim);
    if Selects(b, victim) {
      var j :| 0 <= j < |s.budgets| && s.budgets[j] == PdbFor(s.budgets, victim).value;
      UnblockedAlone(s, j, k, victim);
    }
  }

  /** In particular when one lookup serves all the workload's replicas in the domain. */
  lemma SameBudgetCovers(filter: Sched.Plugins, s: Snapshot, key: string, d: string, ref: Ref, b: Budget, victim: Pod)
    requires PdbCheck.UniqueKeys(s.budgets) && Flagged(filter, s, key, d, ref, b, victim)
    requires forall p, q :: p in Residents(s, key, d, ref) && q in Residents(s, key, d, ref) ==>
      PdbFor(s.budgets, p) == PdbFor(s.budgets, q)
    ensures Selects(b, victim)
  {
    var pods := Residents(s, key, d, ref);
    assert pods[0] in pods && victim in pods;
    PdbForMeans(s.budgets, victim);
  }

  // ---------------------------------------------------------------- and when not

  const OWNER := OwnerRef("StatefulSet", "set", "set", true)
  const SET := Ref("StatefulSet", "default", "set")

  function Replica(name: string, app: string): (r: Pod) {
    Pod("default", name, name, map["app" := app], [OWNER], PodSpec("n", [], [], [], [], None), Running, true, false)
  }

  const NEW := Replica("y", "new")
  const OLD := Replica("x", "old")
  const NEW_ONLY := Budget("default", "web", Parsed(map["app" := "new"], []), None, Some(Count(1)), 0, 0)
  /** A StatefulSet half-way through a label change, on one node, with a budget for the new label. */
  function Relabelled(): (r: Snapshot) {
    Snapshot([DrainExamples.LONE_NODE], [NEW, OLD], [NEW_ONLY], [], [], [], [], [], [], [])
  }

  lemma PairFilter(f: Pod -> bool)
    ensures Filter([NEW, OLD], f) == (if f(NEW) then [NEW] else []) + (if f(OLD) then [OLD] else [])
  {
    FilterAppend([], NEW, f);
    FilterAppend([NEW], OLD, f);
    assert [] + [NEW] == [NEW] && [NEW] + [OLD] == [NEW, OLD];
  }

  lemma PairResides(p: Pod)
    requires p == NEW || p == OLD
    ensures Resides(Relabelled(), "zone", "a", SET, p)
  {
    var s := Relabelled();
    Domain.DomainOfNameHit(s.nodes, "zone", 0);
    assert Survive.DomainOfPod(s, "zone", p) == "a";
    assert p.owners[0] == OWNER;
    assert RefOf(IndexOf(s), p) == SET;
  }

  lemma PairResidents()
    ensures Residents(Relabelled(), "zone", "a", SET) == [NEW, OLD]
  {
    PairResides(NEW);
    PairResides(OLD);
    PairFilter(Resident(Relabelled(), "zone", "a", SET));
  }

  lemma LoneBudget(b: Budget, pods: seq<Pod>)
    ensures PdbCheck.Matched([b], pods, b.Key()) == Filter(pods, PdbCheck.CoveredBy(b))
    ensures forall k :: PdbCheck.Selections([b], pods, k) == PdbCheck.Covering(b, pods, k)
  {
    assert [b][..0] == [];
    assert forall k :: PdbCheck.Selections([], pods, k) == 0;
  }

  lemma PairCovered()
    ensures PdbCheck.Covers(NEW_ONLY, NEW) && !PdbCheck.Covers(NEW_ONLY, OLD)
    ensures Filter([NEW, OLD], PdbCheck.CoveredBy(NEW_ONLY)) == [NEW]
  {
    PairFilter(PdbCheck.CoveredBy(NEW_ONLY));
    assert "app" in NEW_ONLY.selector.matchLabels;
  }

  lemma CoveringNew()
    ensures PdbCheck.Covering(NEW_ONLY, [NEW, OLD], NEW.Key()) == 1
  {
    PairCovered();
    PdbCheck.CoveringAppend(NEW_ONLY, [], NEW, NEW.Key());
    assert [] + [NEW] == [NEW];
    assert [NEW, OLD][..1] == [NEW];
    assert PdbCheck.Covering(NEW_ONLY, [], NEW.Key()) == 0;
  }

  lemma PairUnblocked()
    ensures PdbCheck.BlockOf([NEW_ONLY], [NEW, OLD], NEW_ONLY) == PdbCheck.Unblocked
  {
    LoneBudget(NEW_ONLY, [NEW, OLD]);
    PairCovered();
    CoveringNew();
    assert !PdbCheck.Forbids(NEW_ONLY, 1);
  }

  /** They can differ: the budget is looked up for "y", the first replica in the snapshot, and the
      probe is "x", the first by name, which that budget does not select. */
  lemma ProbeUncovered()
    ensures Flagged(DrainExamples.NOWHERE, Relabelled(), "zone", "a", SET, NEW_ONLY, OLD)
    ensures !Selects(NEW_ONLY, OLD) && PdbFor(Relabelled().budgets, OLD).None?
  {
    PairResidents();
    PairCovered();
    PairChecked();
    PairVictim();
    NowhereDeadlocks(Relabelled(), "zone", "a", OLD);
  }

  lemma PairVictim()
    ensures IsVictim([NEW, OLD], OLD)
  {
    assert StrLe("x", "y") && StrLe("x", "x");
  }

  lemma NowhereDeadlocks(s: Snapshot, key: string, d: string, victim: Pod)
    ensures Deadlocks(DrainExamples.NOWHERE, s, key, d, victim)
    ensures forall ref :: Answerable(DrainExamples.NOWHERE, s, key, d, ref, victim)
  {}

  lemma PairChecked()
    ensures Checked(Relabelled(), [NEW, OLD]) == Some(NEW_ONLY)
    ensures PdbFor([NEW_ONLY], OLD).None?
  {
    PairUnblocked();
    PairCovered();
    assert [NEW_ONLY][1..] == [];
    assert PdbFor([NEW_ONLY], NEW) == Some(NEW_ONLY);
  }
}
