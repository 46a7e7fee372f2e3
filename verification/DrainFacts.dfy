/** What the two drain checks say about every run of a drain. */
module DrainFacts {
  import opened Basics
  import opened Cluster
  import opened Sched
  import opened DrainRun
  import SchedFacts
  import Survive
  import PdbCheck
  import DrainCheck
  import Domain

  // ---------------------------------------------------------------- budgets

  /** How many of `total` covered pods the disruption controller keeps healthy. The API server
      admits one of the two fields; with both, the stricter counts. */
  function Need(b: Budget, total: int): (r: int) {
    var min := if b.minAvailable.Some? then PdbCheck.RequiredAvailable(b.minAvailable, total) else 0;
    var allowed := PdbCheck.AllowedUnavailable(b.maxUnavailable, total);
    var max := if allowed < 0 then 0 else total - allowed;
    if min >= max then min else max
  }

  /** The static check's condition is that the need is everything. */
  lemma ForbidsMeansAll(b: Budget, total: int)
    requires total >= 1
    ensures PdbCheck.Forbids(b, total) <==> Need(b, total) >= total
  {}

  function Covered(s: Snapshot, b: Budget): (r: seq<Pod>) { Filter(s.pods, PdbCheck.CoveredBy(b)) }

  function IsAvailable(): (f: Pod -> bool) { (p: Pod) => p.Assigned() && p.Available() }

  function Uids(pods: seq<Pod>, f: Pod -> bool): (r: set<string>) {
    if pods == [] then {}
    else Uids(pods[..|pods| - 1], f) + (if f(pods[|pods| - 1]) then {pods[|pods| - 1].uid} else {})
  }

  lemma {:induction false} UidsMembers(pods: seq<Pod>, f: Pod -> bool, u: string)
    ensures u in Uids(pods, f) <==> exists p :: p in pods && f(p) && p.uid == u
    ensures |Uids(pods, f)| <= |pods|
  {
    if pods != [] {
      var init, last := pods[..|pods| - 1], pods[|pods| - 1];
      assert pods == init + [last];
      UidsMembers(init, f, u);
    }
  }

  lemma {:induction false} UidsAll(pods: seq<Pod>, f: Pod -> bool)
    requires DistinctUids(pods) && forall p :: p in pods ==> f(p)
    ensures |Uids(pods, f)| == |pods|
  {
    if pods != [] {
      var init, last := pods[..|pods| - 1], pods[|pods| - 1];
      assert pods == init + [last];
      UidsAll(init, f);
      UidsMembers(init, f, last.uid);
      forall p | p in init ensures p.uid != last.uid {
        var i :| 0 <= i < |init| && init[i] == p;
        assert pods[i] == p;
      }
    }
  }

  /** The cluster of the snapshot, before the drain begins. */
  ghost function Start(s: Snapshot, b: Budget): (r: State) {
    State(Seed(s.pods), Uids(Covered(s, b), IsAssigned()), Uids(Covered(s, b), IsAvailable()), map[], 0)
  }

  function DrainOf(filter: Plugins, s: Snapshot, key: string, d: string, b: Budget): (r: Drain) {
    Drain(filter, s.nodes, key, d, Need(b, |Covered(s, b)|))
  }

  lemma StartSane(s: Snapshot, b: Budget)
    requires SchedFacts.Seedable(s.pods)
    ensures Sane(Start(s, b)) && |Start(s, b).members| <= |Covered(s, b)|
  {
    var covered := Covered(s, b);
    FilterMembers(s.pods, PdbCheck.CoveredBy(b));
    UidsMembers(covered, IsAssigned(), "");
    forall u | u in Start(s, b).members ensures u in Seed(s.pods) {
      UidsMembers(covered, IsAssigned(), u);
      var p :| p in covered && p.Assigned() && p.uid == u;
      SchedFacts.SeedHolds(s.pods, p);
    }
    forall u | u in Start(s, b).ready ensures u in Start(s, b).members {
      UidsMembers(covered, IsAvailable(), u);
      UidsMembers(covered, IsAssigned(), u);
    }
  }

  /** "Never satisfiable" is a safety property of every run: no drain of any domain, whatever
      the plugins accept, ever evicts one of the budget's Ready pods. */
  lemma NeverMeansNever(filter: Plugins, s: Snapshot, key: string, d: string, k: nat, ts: seq<Step>)
    requires SchedFacts.Seedable(s.pods) && PdbCheck.UniqueKeys(s.budgets) && k < |s.budgets|
    requires PdbCheck.BlockOf(s.budgets, s.pods, s.budgets[k]) == PdbCheck.NeverSatisfiable
    requires CanRun(DrainOf(filter, s, key, d, s.budgets[k]), Start(s, s.budgets[k]), ts)
    ensures EndOf(DrainOf(filter, s, key, d, s.budgets[k]), Start(s, s.budgets[k]), ts).evictions == 0
  {
    var b := s.budgets[k];
    PdbCheck.MatchedUnique(s.budgets, s.pods, k);
    ForbidsMeansAll(b, |Covered(s, b)|);
    StartSane(s, b);
    StuckForever(DrainOf(filter, s, key, d, b), Start(s, b), ts);
  }

  /** Every covered pod is placed on a labelled node under a UID of its own. */
  ghost predicate AllPlaced(s: Snapshot, key: string, b: Budget) {
    && DistinctUids(Covered(s, b))
    && forall p :: p in Covered(s, b) ==> p.Assigned() && Survive.DomainOfPod(s, key, p) != ""
  }

  /** Some drain of some domain evicts one of the budget's pods in some run. */
  ghost predicate CanEvict(filter: Plugins, s: Snapshot, key: string, b: Budget) {
    exists d :: EvictsAgain(DrainOf(filter, s, key, d, b), Start(s, b))
  }

  /** Whatever the static check says: for a budget whose pods are placed, that is a question of
      its fields. */
  lemma CanEvictIff(filter: Plugins, s: Snapshot, key: string, b: Budget)
    requires SchedFacts.Seedable(s.pods) && AllPlaced(s, key, b)
    ensures CanEvict(filter, s, key, b) <==> Covered(s, b) != [] && !PdbCheck.Forbids(b, |Covered(s, b)|)
  {
    var covered := Covered(s, b);
    StartSane(s, b);
    UidsAll(covered, IsAssigned());
    forall d ensures EvictsAgain(DrainOf(filter, s, key, d, b), Start(s, b)) <==>
      Spare(DrainOf(filter, s, key, d, b), Start(s, b))
    {
      EvictsAgainIff(DrainOf(filter, s, key, d, b), Start(s, b));
    }
    if covered != [] {
      ForbidsMeansAll(b, |covered|);
      FirstIsMember(s, key, b);
      var home := Survive.DomainOfPod(s, key, covered[0]);
      assert InDomain(DrainOf(filter, s, key, home, b), Start(s, b), covered[0].uid);
    }
  }

  /** And exactly that: for a fresh budget whose pods are covered once and placed, the static
      check says "never" iff no drain of any domain evicts anything. */
  lemma NeverIff(filter: Plugins, s: Snapshot, key: string, k: nat)
    requires SchedFacts.Seedable(s.pods) && PdbCheck.UniqueKeys(s.budgets) && k < |s.budgets|
    requires s.budgets[k].generation == s.budgets[k].observedGeneration
    requires Covered(s, s.budgets[k]) != [] && AllPlaced(s, key, s.budgets[k])
    requires !PdbCheck.Overlaps(s.budgets, s.pods, PdbCheck.Matched(s.budgets, s.pods, s.budgets[k].Key()))
    ensures PdbCheck.BlockOf(s.budgets, s.pods, s.budgets[k]) == PdbCheck.NeverSatisfiable
       <==> !CanEvict(filter, s, key, s.budgets[k])
  {
    PdbCheck.MatchedUnique(s.budgets, s.pods, k);
    CanEvictIff(filter, s, key, s.budgets[k]);
  }

  /** A block of any kind means "never", and no block means some drain can evict, exactly when the
      fields forbid every eviction or the block is not about freshness or overlap: a budget that
      covers nothing evicts nothing, but a stale or an overlapping one may well have a pod to spare. */
  lemma BlockedMeansNever(filter: Plugins, s: Snapshot, key: string, k: nat)
    requires SchedFacts.Seedable(s.pods) && PdbCheck.UniqueKeys(s.budgets) && k < |s.budgets|
    requires AllPlaced(s, key, s.budgets[k])
    ensures var b := s.budgets[k];
      var block := PdbCheck.BlockOf(s.budgets, s.pods, b);
      (block != PdbCheck.Unblocked <==> !CanEvict(filter, s, key, b)) <==>
      PdbCheck.Forbids(b, |Covered(s, b)|) || block !in {PdbCheck.StaleStatus, PdbCheck.MultiplePDBs}
  {
    PdbCheck.MatchedUnique(s.budgets, s.pods, k);
    CanEvictIff(filter, s, key, s.budgets[k]);
  }

  /** A pod on a node is in its domain when the drain begins. */
  lemma SeenAt(filter: Plugins, s: Snapshot, key: string, d: string, b: Budget, p: Pod)
    requires SchedFacts.Seedable(s.pods) && p in s.pods && p.Assigned() && Survive.DomainOfPod(s, key, p) == d
    ensures InDomain(DrainOf(filter, s, key, d, b), Start(s, b), p.uid)
  {
    SchedFacts.SeedHolds(s.pods, p);
  }

  lemma OnePlaced(s: Snapshot, key: string, b: Budget, p: Pod)
    requires Covered(s, b) == [p] && p.Assigned() && Survive.DomainOfPod(s, key, p) != ""
    ensures AllPlaced(s, key, b)
  {}

  lemma FirstIsMember(s: Snapshot, key: string, b: Budget)
    requires SchedFacts.Seedable(s.pods) && Covered(s, b) != [] && AllPlaced(s, key, b)
    ensures var p := Covered(s, b)[0];
      p.uid in Start(s, b).members && p.uid in Seed(s.pods) && Seed(s.pods)[p.uid] == p
  {
    var p := Covered(s, b)[0];
    FilterMembers(s.pods, PdbCheck.CoveredBy(b));
    assert p in Covered(s, b);
    UidsMembers(Covered(s, b), IsAssigned(), p.uid);
    SchedFacts.SeedHolds(s.pods, p);
  }

  // ---------------------------------------------------------------- what a finding is worth

  /** Evicting the flagged replica is possible and covered by this budget. */
  ghost predicate Strikes(filter: Plugins, s: Snapshot, key: string, d: string, b: Budget, victim: Pod, t: Step) {
    && victim in Covered(s, b) && victim.Assigned()
    && t.Evict? && t.uid == victim.uid
    && Enabled(DrainOf(filter, s, key, d, b), Start(s, b), t)
  }

  ghost function Struck(filter: Plugins, s: Snapshot, key: string, d: string, b: Budget, t: Step): (r: State)
    requires Enabled(DrainOf(filter, s, key, d, b), Start(s, b), t)
  {
    Do(DrainOf(filter, s, key, d, b), Start(s, b), t)
  }

  lemma WithoutOne(s: Snapshot, victim: Pod)
    ensures DrainCheck.Without(s, victim) == Seed(s.pods) - {victim.uid}
  {
    var one := [victim];
    assert one[..|one| - 1] == [];
    assert RemoveAll(Seed(s.pods), one) == RemoveAll(Seed(s.pods), []) - {one[|one| - 1].uid};
  }

  lemma EvictEffect(c: Drain, s: State, t: Step)
    requires Sane(s) && t.Evict? && Enabled(c, s, t)
    ensures var s' := Do(c, s, t);
      && s'.view == s.view - {t.uid} && s'.members == s.members - {t.uid} && t.uid in s.members
      && s'.pending == s.pending[t.newUid := Replacement(s.view[t.uid], t.name, t.newUid)]
      && s'.evictions == s.evictions + 1
  {}

  lemma StrikeEffect(filter: Plugins, s: Snapshot, key: string, d: string, b: Budget, victim: Pod, t: Step)
    requires SchedFacts.Seedable(s.pods) && Strikes(filter, s, key, d, b, victim, t)
    ensures Sane(Start(s, b)) && Sane(Struck(filter, s, key, d, b, t))
    ensures var s' := Struck(filter, s, key, d, b, t);
      && s'.view == DrainCheck.Without(s, victim)
      && s'.members == Start(s, b).members - {victim.uid}
      && s'.pending == map[t.newUid := Replacement(victim, t.name, t.newUid)]
      && s'.evictions == 1
    ensures victim.uid in Start(s, b).members
  {
    var c := DrainOf(filter, s, key, d, b);
    StartSane(s, b);
    StepConserves(c, Start(s, b), t);
    EvictEffect(c, Start(s, b), t);
    WithoutOne(s, victim);
    CoveredSeeded(s, b, victim);
  }

  lemma CoveredSeeded(s: Snapshot, b: Budget, p: Pod)
    requires SchedFacts.Seedable(s.pods) && p in Covered(s, b) && p.Assigned()
    ensures p.uid in Seed(s.pods) && Seed(s.pods)[p.uid] == p
  {
    FilterMembers(s.pods, PdbCheck.CoveredBy(b));
    SchedFacts.SeedHolds(s.pods, p);
  }

  /** One waiting replacement with nowhere to go outside, under any name. */
  lemma OneWaiting(c: Drain, s: State, p: Pod, name: string, uid: string)
    requires SchedFacts.IgnoresIdentity(c.filter)
    requires s.pending == map[uid := p.(name := name, uid := uid)]
    requires DrainCheck.OnlyInside(c.filter, c.nodes, c.key, s.view, p, c.domain)
    ensures Stuck(c, s)
  {
    forall u, i | u in s.pending && 0 <= i < |c.nodes| && c.filter.accepts(s.view, s.pending[u], c.nodes[i])
      ensures Domain.Of(c.nodes[i], c.key) == Some(c.domain)
    {
      assert c.filter.accepts(s.view, p.(name := name, uid := uid), c.nodes[i]);
    }
  }

  /** A deadlocking eviction leaves the drain stuck, whatever the replacement is called. */
  lemma FindingStuck(filter: Plugins, s: Snapshot, key: string, d: string, b: Budget, victim: Pod, t: Step)
    requires SchedFacts.Seedable(s.pods) && SchedFacts.IgnoresIdentity(filter)
    requires DrainCheck.Deadlocks(filter, s, key, d, victim) && Strikes(filter, s, key, d, b, victim, t)
    ensures Sane(Struck(filter, s, key, d, b, t))
    ensures Stuck(DrainOf(filter, s, key, d, b), Struck(filter, s, key, d, b, t))
  {
    StrikeEffect(filter, s, key, d, b, victim, t);
    OneWaiting(DrainOf(filter, s, key, d, b), Struck(filter, s, key, d, b, t), DrainCheck.Candidate(victim),
               t.name, t.newUid);
  }

  /** The budget can spare a second pod and the domain holds one. */
  ghost predicate Tolerates(filter: Plugins, s: Snapshot, key: string, d: string, b: Budget, victim: Pod) {
    && |Start(s, b).members| - 1 > Need(b, |Covered(s, b)|)
    && exists u ::
         u in Start(s, b).members && u != victim.uid && InDomain(DrainOf(filter, s, key, d, b), Start(s, b), u)
  }

  /** Never so under a budget that tolerates one disruption only. */
  lemma OneDisruption(filter: Plugins, s: Snapshot, key: string, d: string, b: Budget, victim: Pod)
    requires SchedFacts.Seedable(s.pods) && Need(b, |Covered(s, b)|) >= |Covered(s, b)| - 1
    ensures !Tolerates(filter, s, key, d, b, victim)
  {
    StartSane(s, b);
  }

  /** What the finding's last sentence is worth, exactly: after the flagged eviction the budget
      permits another in some run iff it can spare a second pod and the domain holds one. */
  lemma FindingExactly(filter: Plugins, s: Snapshot, key: string, d: string, b: Budget, victim: Pod, t: Step)
    requires SchedFacts.Seedable(s.pods) && SchedFacts.IgnoresIdentity(filter)
    requires DrainCheck.Deadlocks(filter, s, key, d, victim) && Strikes(filter, s, key, d, b, victim, t)
    ensures EvictsAgain(DrainOf(filter, s, key, d, b), Struck(filter, s, key, d, b, t))
       <==> Tolerates(filter, s, key, d, b, victim)
  {
    var c := DrainOf(filter, s, key, d, b);
    FindingStuck(filter, s, key, d, b, victim, t);
    EvictsAgainIff(c, Struck(filter, s, key, d, b, t));
    StrikeEffect(filter, s, key, d, b, victim, t);
    EvictEffect(c, Start(s, b), t);
    SpareAfter(c, Start(s, b), t);
  }

  lemma SpareAfter(c: Drain, s: State, t: Step)
    requires Sane(s) && t.Evict? && Enabled(c, s, t)
    ensures Spare(c, Do(c, s, t)) <==>
      |s.members| - 1 > c.need && exists u :: u in s.members && u != t.uid && InDomain(c, s, u)
  {
    var s' := Do(c, s, t);
    assert |s'.members| == |s.members| - 1;
    forall u ensures u in s'.members && InDomain(c, s', u) <==> u in s.members && u != t.uid && InDomain(c, s, u) {}
  }

  /** Unless it can, the deadlock is real: in every run after the flagged eviction, nothing more
      is evicted and the replacement is still waiting. */
  lemma FindingDeadlocks(filter: Plugins, s: Snapshot, key: string, d: string, b: Budget, victim: Pod, t: Step,
                         ts: seq<Step>)
    requires SchedFacts.Seedable(s.pods) && SchedFacts.IgnoresIdentity(filter)
    requires DrainCheck.Deadlocks(filter, s, key, d, victim) && Strikes(filter, s, key, d, b, victim, t)
    requires !Tolerates(filter, s, key, d, b, victim)
    requires CanRun(DrainOf(filter, s, key, d, b), Struck(filter, s, key, d, b, t), ts)
    ensures var end := EndOf(DrainOf(filter, s, key, d, b), Struck(filter, s, key, d, b, t), ts);
      end.evictions == 1 && end.pending == map[t.newUid := Replacement(victim, t.name, t.newUid)]
  {
    var c := DrainOf(filter, s, key, d, b);
    FindingStuck(filter, s, key, d, b, victim, t);
    StartSane(s, b);
    StrikeEffect(filter, s, key, d, b, victim, t);
    SpareAfter(c, Start(s, b), t);
    StuckForever(c, Struck(filter, s, key, d, b, t), ts);
  }

  /** However the flagged replica is evicted and whatever happens next, that eviction was the
      drain's last, and its replacement is never placed. */
  ghost predicate NeverRecovers(filter: Plugins, s: Snapshot, key: string, d: string, b: Budget, victim: Pod) {
    forall t, ts :: Follows(filter, s, key, d, b, victim, t, ts) ==> LastOne(filter, s, key, d, b, t, ts)
  }

  /** A run of the drain that begins with the flagged eviction. */
  ghost predicate Follows(filter: Plugins, s: Snapshot, key: string, d: string, b: Budget, victim: Pod, t: Step,
                          ts: seq<Step>)
  {
    && Strikes(filter, s, key, d, b, victim, t)
    && CanRun(DrainOf(filter, s, key, d, b), Struck(filter, s, key, d, b, t), ts)
  }

  ghost predicate LastOne(filter: Plugins, s: Snapshot, key: string, d: string, b: Budget, t: Step, ts: seq<Step>)
    requires t.Evict? && Enabled(DrainOf(filter, s, key, d, b), Start(s, b), t)
    requires CanRun(DrainOf(filter, s, key, d, b), Struck(filter, s, key, d, b, t), ts)
  {
    var end := EndOf(DrainOf(filter, s, key, d, b), Struck(filter, s, key, d, b, t), ts);
    end.evictions == 1 && t.newUid in end.pending
  }

  /** A probed replica is covered by the budgets that select it, and stands in the domain. */
  lemma ProbePlace(filter: Plugins, s: Snapshot, key: string, d: string, ref: Ref, b: Budget, victim: Pod)
    requires SchedFacts.Seedable(s.pods) && ProperNodes(s.nodes) &&
      DrainCheck.Flagged(filter, s, key, d, ref, b, victim)
    ensures victim in s.pods && victim.Assigned() && victim.Available()
    ensures victim in Covered(s, b) <==> DrainCheck.Selects(b, victim)
    ensures InDomain(DrainOf(filter, s, key, d, b), Start(s, b), victim.uid)
  {
    DrainCheck.ResidentAssigned(s, key, d, ref, victim);
    FilterMembers(s.pods, PdbCheck.CoveredBy(b));
    SchedFacts.SeedHolds(s.pods, victim);
  }

  /** It can be evicted at all iff the budget has a Ready pod to spare. */
  lemma StrikesIff(filter: Plugins, s: Snapshot, key: string, d: string, ref: Ref, b: Budget, victim: Pod)
    requires SchedFacts.Seedable(s.pods) && ProperNodes(s.nodes) &&
      DrainCheck.Flagged(filter, s, key, d, ref, b, victim)
    requires DrainCheck.Selects(b, victim)
    ensures (exists t :: Strikes(filter, s, key, d, b, victim, t)) <==> |Start(s, b).ready| > Need(b, |Covered(s, b)|)
  {
    ProbePlace(filter, s, key, d, ref, b, victim);
    UidsMembers(Covered(s, b), IsAvailable(), victim.uid);
    if |Start(s, b).ready| > Need(b, |Covered(s, b)|) {
      assert Strikes(filter, s, key, d, b, victim, Evict(victim.uid, victim.name, victim.uid));
    }
  }

  /** The state after a probe the budget does not cover was evicted: one pod fewer in view, and
      a replacement with nowhere to go that the budget does not count either. */
  ghost function Bypassed(s: Snapshot, b: Budget, victim: Pod): (r: State) {
    Start(s, b).(view := DrainCheck.Without(s, victim))
  }

  lemma BypassedSane(s: Snapshot, b: Budget, victim: Pod)
    requires SchedFacts.Seedable(s.pods) && victim in s.pods && victim.Assigned() && victim !in Covered(s, b)
    ensures Sane(Bypassed(s, b, victim)) && victim.uid !in Start(s, b).members
  {
    StartSane(s, b);
    WithoutOne(s, victim);
    SchedFacts.SeedHolds(s.pods, victim);
    UidsMembers(Covered(s, b), IsAssigned(), victim.uid);
    FilterMembers(s.pods, PdbCheck.CoveredBy(b));
    forall p | p in Covered(s, b) && p.Assigned() ensures p.uid != victim.uid { SchedFacts.SeedHolds(s.pods, p); }
  }

  /** Then the budget permits an eviction in some run iff it could before. */
  lemma UncoveredProbe(filter: Plugins, s: Snapshot, key: string, d: string, b: Budget, victim: Pod)
    requires SchedFacts.Seedable(s.pods) && victim in s.pods && victim.Assigned() && victim !in Covered(s, b)
    ensures EvictsAgain(DrainOf(filter, s, key, d, b), Bypassed(s, b, victim))
       <==> Spare(DrainOf(filter, s, key, d, b), Start(s, b))
  {
    var c := DrainOf(filter, s, key, d, b);
    BypassedSane(s, b, victim);
    WithoutOne(s, victim);
    EvictsAgainIff(c, Bypassed(s, b, victim));
    forall u | u in Start(s, b).members
      ensures InDomain(c, Bypassed(s, b, victim), u) <==> InDomain(c, Start(s, b), u)
    {}
  }

  /** From the list the check prints to every run. A finding whose budget selects the probed
      replica is a real deadlock iff the budget cannot spare a second pod of the domain (or, at
      the start, not even the first); when the budget does not select the probe, its eviction
      changes nothing about what the budget permits. */
  lemma ListedFindingHolds(filter: Plugins, s: Snapshot, key: string, domains: seq<string>,
                           out: seq<DrainCheck.Finding>,
                           f: DrainCheck.Finding) returns (b: Budget, victim: Pod)
    requires SchedFacts.Seedable(s.pods) && SchedFacts.IgnoresIdentity(filter) && ProperNodes(s.nodes)
    requires DrainCheck.Detected(filter, s, key, domains, out) && f in out
    ensures f.pdb == b.name && f.namespace == b.namespace
    ensures DrainCheck.Flagged(filter, s, key, f.domain, f.workload, b, victim)
    ensures DrainCheck.Selects(b, victim) ==>
      (NeverRecovers(filter, s, key, f.domain, b, victim) <==>
        |Start(s, b).ready| <= Need(b, |Covered(s, b)|) || !Tolerates(filter, s, key, f.domain, b, victim))
    ensures !DrainCheck.Selects(b, victim) ==>
      (EvictsAgain(DrainOf(filter, s, key, f.domain, b), Bypassed(s, b, victim)) <==>
        Spare(DrainOf(filter, s, key, f.domain, b), Start(s, b)))
  {
    b, victim := DrainCheck.FindingSound(filter, s, key, domains, out, f);
    ProbePlace(filter, s, key, f.domain, f.workload, b, victim);
    if DrainCheck.Selects(b, victim) {
      RecoversIff(filter, s, key, f.domain, f.workload, b, victim);
    } else {
      UncoveredProbe(filter, s, key, f.domain, b, victim);
    }
  }

  lemma RecoversIff(filter: Plugins, s: Snapshot, key: string, d: string, ref: Ref, b: Budget, victim: Pod)
    requires SchedFacts.Seedable(s.pods) && SchedFacts.IgnoresIdentity(filter) && ProperNodes(s.nodes)
    requires DrainCheck.Flagged(filter, s, key, d, ref, b, victim) && DrainCheck.Selects(b, victim)
    ensures NeverRecovers(filter, s, key, d, b, victim) <==>
      |Start(s, b).ready| <= Need(b, |Covered(s, b)|) || !Tolerates(filter, s, key, d, b, victim)
  {
    StrikesIff(filter, s, key, d, ref, b, victim);
    if !Tolerates(filter, s, key, d, b, victim) {
      LastEviction(filter, s, key, d, b, victim);
    } else if t :| Strikes(filter, s, key, d, b, victim, t) {
      FindingExactly(filter, s, key, d, b, victim, t);
      StrikeEffect(filter, s, key, d, b, victim, t);
      var ts :| CanRun(DrainOf(filter, s, key, d, b), Struck(filter, s, key, d, b, t), ts)
        && EndOf(DrainOf(filter, s, key, d, b), Struck(filter, s, key, d, b, t), ts).evictions > 1;
      assert Follows(filter, s, key, d, b, victim, t, ts) && !LastOne(filter, s, key, d, b, t, ts);
    }
  }

  lemma LastEviction(filter: Plugins, s: Snapshot, key: string, d: string, b: Budget, victim: Pod)
    requires SchedFacts.Seedable(s.pods) && SchedFacts.IgnoresIdentity(filter)
    requires DrainCheck.Deadlocks(filter, s, key, d, victim)
    requires !Tolerates(filter, s, key, d, b, victim)
    ensures NeverRecovers(filter, s, key, d, b, victim)
  {
    forall t, ts | Follows(filter, s, key, d, b, victim, t, ts) ensures LastOne(filter, s, key, d, b, t, ts) {
      FindingDeadlocks(filter, s, key, d, b, victim, t, ts);
    }
  }
}
