/** Which answers the fix command gives, and to what question, read off the cluster's objects. */
module AnswerFacts {
  import opened Basics
  import opened Cluster
  import opened Workload
  import opened Ladder
  import opened Sched
  import opened Survive
  import opened Verify
  import opened Rank
  import SchedFacts
  import RankFacts
  import SurviveFacts
  import VerdictFacts
  import VerifyFacts
  import VolumePin
  import PdbCheck
  import WorkloadFacts
  import Domain
  import DepGraph
  import Spread

  // ---------------------------------------------------------------- the object behind a workload

  /** A Deployment for a Deployment's reference, a StatefulSet for a StatefulSet's, of that name. */
  ghost predicate Behind(s: Snapshot, r: Ref, c: Controller) {
    && c.namespace == r.namespace && c.name == r.name
    && ((r.kind == "Deployment" && c in s.deployments) || (r.kind == "StatefulSet" && c in s.statefulSets))
  }

  ghost predicate NamesDiffer(s: Snapshot) {
    WorkloadFacts.DistinctNames(s.deployments) && WorkloadFacts.DistinctNames(s.statefulSets)
  }

  lemma {:induction false} FindMeans(cs: seq<Controller>, r: Ref, c: Controller)
    requires WorkloadFacts.DistinctNames(cs)
    ensures Find(cs, r) == Some(c) <==> c in cs && c.namespace == r.namespace && c.name == r.name
  {
    if cs != [] {
      var rest := cs[1..];
      assert cs == [cs[0]] + rest;
      forall i, j | 0 <= i < j < |rest| ensures rest[i].namespace != rest[j].namespace || rest[i].name != rest[j].name {
        assert rest[i] == cs[i + 1] && rest[j] == cs[j + 1];
      }
      FindMeans(rest, r, c);
      if c in rest {
        var j :| 0 <= j < |rest| && rest[j] == c;
        assert cs[j + 1] == c;
      }
    }
  }

  lemma ResolvesTo(s: Snapshot, r: Ref, c: Controller)
    requires NamesDiffer(s)
    ensures Find(Controllers(s, r.kind), r) == Some(c) <==> Behind(s, r, c)
  {
    FindMeans(Controllers(s, r.kind), r, c);
  }

  // ---------------------------------------------------------------- its budget

  /** The budget selects one of the workload's pods, whatever state that pod is in. */
  ghost predicate Reaches(s: Snapshot, r: Ref, b: Budget) {
    exists p :: p in s.pods && p.namespace == b.namespace && b.selector.Matches(p.labels) && RefOf(IndexOf(s), p) == r
  }

  ghost predicate FirstToReach(s: Snapshot, r: Ref, budgets: seq<Budget>, i: int) {
    0 <= i < |budgets| && Reaches(s, r, budgets[i]) && forall j :: 0 <= j < i ==> !Reaches(s, r, budgets[j])
  }

  lemma GuardsMeans(s: Snapshot, r: Ref, b: Budget)
    ensures Guards(IndexOf(s), b, s.pods, r) <==> Reaches(s, r, b)
  {
    if p :| p in s.pods && p.namespace == b.namespace && b.selector.Matches(p.labels) && RefOf(IndexOf(s), p) == r {
      var i :| 0 <= i < |s.pods| && s.pods[i] == p;
      assert Selects(IndexOf(s), b, s.pods[i], r);
    }
  }

  /** The workload's budget is the first in the snapshot that selects one of its pods. */
  lemma {:induction false} BudgetMeans(s: Snapshot, r: Ref, budgets: seq<Budget>)
    ensures var found := BudgetFor(IndexOf(s), budgets, s.pods, r);
      && (found.None? <==> forall i :: 0 <= i < |budgets| ==> !Reaches(s, r, budgets[i]))
      && (found.Some? ==> exists i :: FirstToReach(s, r, budgets, i) && budgets[i] == found.value)
  {
    if budgets != [] {
      var init, last := budgets[..|budgets| - 1], budgets[|budgets| - 1];
      BudgetMeans(s, r, init);
      GuardsMeans(s, r, last);
      assert forall i :: 0 <= i < |init| ==> init[i] == budgets[i];
      if BudgetFor(IndexOf(s), init, s.pods, r).Some? {
        var i :| FirstToReach(s, r, init, i) && init[i] == BudgetFor(IndexOf(s), init, s.pods, r).value;
        assert FirstToReach(s, r, budgets, i);
      } else if Reaches(s, r, last) {
        assert FirstToReach(s, r, budgets, |init|);
      }
    }
  }

  // ---------------------------------------------------------------- the question

  function OwnOrTemplate(c: Controller): (r: Labels) {
    match c.selector
    case Parsed(labels, _) => if labels == map[] then c.template.labels else labels
    case _ => c.template.labels
  }

  /** One of the available replicas mounts a volume that a domain has to itself. */
  ghost predicate SomeTied(s: Snapshot, key: string, r: Ref) {
    exists p :: p in Members(IndexOf(s), s.pods, r) && VerdictFacts.MountsTied(s, key, p)
  }

  ghost predicate Unguarded(s: Snapshot, r: Ref) { forall b :: b in s.budgets ==> !Reaches(s, r, b) }

  /** The first of the cluster's budgets that reaches the workload. */
  ghost predicate GuardedBy(s: Snapshot, r: Ref, b: Budget) {
    exists i :: FirstToReach(s, r, s.budgets, i) && s.budgets[i] == b
  }

  lemma OneGuard(s: Snapshot, r: Ref, a: Budget, b: Budget)
    requires GuardedBy(s, r, a) && GuardedBy(s, r, b)
    ensures a == b && !Unguarded(s, r)
  {
    var i :| FirstToReach(s, r, s.budgets, i) && s.budgets[i] == a;
    var j :| FirstToReach(s, r, s.budgets, j) && s.budgets[j] == b;
    assert i == j && s.budgets[i] in s.budgets;
  }

  lemma GuardMeans(s: Snapshot, r: Ref)
    ensures var found := BudgetFor(IndexOf(s), s.budgets, s.pods, r);
      (found.None? <==> Unguarded(s, r)) && (found.Some? ==> GuardedBy(s, r, found.value))
  {
    BudgetMeans(s, r, s.budgets);
    if Unguarded(s, r) {
      forall i | 0 <= i < |s.budgets| ensures !Reaches(s, r, s.budgets[i]) { assert s.budgets[i] in s.budgets; }
    } else {
      var b :| b in s.budgets && Reaches(s, r, b);
      var i :| 0 <= i < |s.budgets| && s.budgets[i] == b;
    }
  }

  /** A controller that leaves the field unset counts as having none. */
  function DeclaredCount(c: Controller): (r: int) { match c.replicas case Some(n) => n case None => 0 }

  /** What the ladder is asked about the workload behind which `c` stands: its template, the count it
      declares (none counts as 0), its match labels or else the template's, whether a replica mounts
      a volume tied to a domain, its budget, and the protection its first available pod asks for. */
  ghost predicate Describes(s: Snapshot, key: string, domains: seq<string>, r: Ref, c: Controller, input: Input) {
    var pods := Members(IndexOf(s), s.pods, r);
    && input.workload == r && input.key == key && input.domains == domains
    && input.template == c.template
    && input.replicas == DeclaredCount(c)
    && input.selector == OwnOrTemplate(c)
    && (input.pinned <==> SomeTied(s, key, r))
    && (input.budget.None? <==> Unguarded(s, r))
    && (input.budget.Some? ==> GuardedBy(s, r, input.budget.value))
    && pods != [] && input.antiAffinity == Spread.AntiAffinityState(pods[0].spec.antiAffinity, key)
  }

  /** The cluster's objects as the API server has them. */
  ghost predicate WellFormed(s: Snapshot) {
    && NamesDiffer(s) && WorkloadFacts.DistinctSets(s)
    && VolumePin.Proper(s) && VerdictFacts.PlainVolumes(s)
    && forall p :: p in s.pods ==> '/' !in p.namespace
  }

  lemma CountMeans(s: Snapshot, r: Ref, c: Controller)
    requires NamesDiffer(s) && Behind(s, r, c)
    ensures ReplicaCount(c, IndexOf(s), r) == DeclaredCount(c)
  {
    if c.replicas.None? && r in IndexOf(s).replicas {
      var n := IndexOf(s).replicas[r];
      assert WorkloadFacts.Counts(s, r, n);
      WorkloadFacts.CountsIff(s, r, n);
      OnlyBehind(s, r, c, n);
    }
  }

  lemma OnlyBehind(s: Snapshot, r: Ref, c: Controller, n: int)
    requires NamesDiffer(s) && Behind(s, r, c) && c.replicas.None?
    ensures !WorkloadFacts.DeclaredBy(s, r, n)
  {
    forall o | Behind(s, r, o) ensures o == c {
      ResolvesTo(s, r, o);
      ResolvesTo(s, r, c);
    }
    if WorkloadFacts.DeclaredBy(s, r, n) {
      var o :| Behind(s, r, o) && o.replicas == Some(n);
    }
  }

  lemma QuestionMeans(s: Snapshot, key: string, domains: seq<string>, v: Verdict, c: Controller)
    requires WellFormed(s) && Behind(s, v.workload, c)
    requires var pods := Members(IndexOf(s), s.pods, v.workload);
      && pods != [] && v.pins == Survive.PinsOf(s, key, pods)
      && v.antiAffinity == Spread.AntiAffinityState(pods[0].spec.antiAffinity, key)
    ensures Describes(s, key, domains, v.workload, c, InputFor(s, key, domains, v, c))
  {
    var pods := Members(IndexOf(s), s.pods, v.workload);
    CountMeans(s, v.workload, c);
    MembersOf(IndexOf(s), s.pods, v.workload);
    VerdictFacts.PinnedMeans(s, key, pods);
    GuardMeans(s, v.workload);
  }

  // ---------------------------------------------------------------- the answer

  /** The answer of the ladder to what the cluster says of the workload; no answer for a workload with
      no object to read a template from. */
  ghost predicate Answered(filter: Plugins, s: Snapshot, key: string, domains: seq<string>, r: Ref, a: Answer) {
    && (forall c :: Behind(s, r, c) ==> AnsweredFor(filter, s, key, domains, r, c, a))
    && ((forall c :: !Behind(s, r, c)) ==> a.fixes == [] && a.incomplete == [] && a.architectural == [])
  }

  ghost predicate AnsweredFor(filter: Plugins, s: Snapshot, key: string, domains: seq<string>, r: Ref, c: Controller,
                              a: Answer)
  {
    exists input :: Describes(s, key, domains, r, c, input) && IsAnswer(filter, s, key, input, a)
  }

  lemma AnswerMeans(filter: Plugins, s: Snapshot, key: string, domains: seq<string>, d: string, v: Verdict, a: Answer)
    requires WellFormed(s) && Answers(filter, s, key, domains, d, v, a)
    requires var pods := Members(IndexOf(s), s.pods, v.workload);
      && pods != [] && v.pins == Survive.PinsOf(s, key, pods)
      && v.antiAffinity == Spread.AntiAffinityState(pods[0].spec.antiAffinity, key)
    ensures Answered(filter, s, key, domains, v.workload, a)
  {
    forall c | Behind(s, v.workload, c) ensures AnsweredFor(filter, s, key, domains, v.workload, c, a) {
      ResolvesTo(s, v.workload, c);
      QuestionMeans(s, key, domains, v, c);
    }
    if Find(Controllers(s, v.workload.kind), v.workload).Some? {
      ResolvesTo(s, v.workload, Find(Controllers(s, v.workload.kind), v.workload).value);
    }
  }

  /** Who gets an answer: for each domain, exactly the workloads that counting their pods calls lost
      or degraded, among those asked about. */
  lemma AnsweredExactly(filter: Plugins, s: Snapshot, key: string, urlHost: DepGraph.UrlHost, g: DepGraph.Graph,
                        refs: seq<Ref>, report: Report, domains: seq<string>, only: seq<string>, answers: seq<Answer>,
                        r: Ref, d: string)
    requires IsReport(s, IndexOf(s), key, urlHost, g, refs, report)
    requires IsRun(filter, s, key, domains, report.domains, only, answers)
    ensures (exists a :: a in answers && a.workload == r && a.domain == d) <==>
      && d in Domain.DomainsOf(s.nodes, key)
      && (SurviveFacts.IsOutcome(s, key, r, d, Lost) || SurviveFacts.IsOutcome(s, key, r, d, Degraded))
      && (only == [] || r.name in only)
  {
    if a :| a in answers && a.workload == r && a.domain == d {
      var i, v := RankFacts.EveryAnswerCalledFor(filter, s, key, domains, report.domains, only, answers, a);
      SurviveFacts.ReportTotals(s, key, urlHost, g, refs, report, i);
      var j :| 0 <= j < |report.domains[i].verdicts| && report.domains[i].verdicts[j] == v;
      SurviveFacts.VerdictIs(s, key, urlHost, g, refs, report, i, r, v.outcome);
    }
    if && d in Domain.DomainsOf(s.nodes, key) && (only == [] || r.name in only)
       && (SurviveFacts.IsOutcome(s, key, r, d, Lost) || SurviveFacts.IsOutcome(s, key, r, d, Degraded))
    {
      var a := AnswerTo(filter, s, key, urlHost, g, refs, report, domains, only, answers, r, d);
    }
  }

  lemma AnswerTo(filter: Plugins, s: Snapshot, key: string, urlHost: DepGraph.UrlHost, g: DepGraph.Graph,
                 refs: seq<Ref>, report: Report, domains: seq<string>, only: seq<string>, answers: seq<Answer>,
                 r: Ref, d: string) returns (a: Answer)
    requires IsReport(s, IndexOf(s), key, urlHost, g, refs, report)
    requires IsRun(filter, s, key, domains, report.domains, only, answers)
    requires d in Domain.DomainsOf(s.nodes, key) && (only == [] || r.name in only)
    requires SurviveFacts.IsOutcome(s, key, r, d, Lost) || SurviveFacts.IsOutcome(s, key, r, d, Degraded)
    ensures a in answers && a.workload == r && a.domain == d
    ensures WellFormed(s) ==> Answered(filter, s, key, domains, r, a)
  {
    var i := SurviveFacts.DomainRow(s, key, report, d);
    var j := SurviveFacts.ReportComplete(s, key, urlHost, g, refs, report, i, r);
    var v := report.domains[i].verdicts[j];
    a := RankFacts.EveryFailureAnswered(filter, s, key, domains, report.domains, only, answers, i, v);
    if WellFormed(s) {
      VerdictFacts.FullRow(s, key, urlHost, g, refs, report, i, j);
      AnswerMeans(filter, s, key, domains, d, v, a);
    }
  }

  /** The whole chain, from a Deployment's pods to its answer: when it has available pods and all of
      them are gone with `d`, some answer for `d` names it and is the ladder's for its template. */
  lemma LostDeploymentAnswered(filter: Plugins, s: Snapshot, key: string, urlHost: DepGraph.UrlHost,
                               g: DepGraph.Graph, refs: seq<Ref>, report: Report, domains: seq<string>,
                               answers: seq<Answer>, c: Controller, d: string) returns (a: Answer)
    requires WellFormed(s) && c in s.deployments && d in Domain.DomainsOf(s.nodes, key)
    requires IsReport(s, IndexOf(s), key, urlHost, g, refs, report)
    requires IsRun(filter, s, key, domains, report.domains, [], answers)
    requires exists p :: p in s.pods && DeploymentPod(s, c, p)
    requires forall p :: p in s.pods && DeploymentPod(s, c, p) ==> SurviveFacts.Gone(s, key, d, p)
    ensures a in answers && a.domain == d && a.workload == Ref("Deployment", c.namespace, c.name)
    ensures AnsweredFor(filter, s, key, domains, a.workload, c, a)
  {
    var r := Ref("Deployment", c.namespace, c.name);
    var pods := Members(IndexOf(s), s.pods, r);
    forall p ensures p in pods <==> p in s.pods && DeploymentPod(s, c, p) { WorkloadFacts.DeploymentMembers(s, c, p); }
    var p :| p in s.pods && DeploymentPod(s, c, p);
    assert p in pods;
    Domain.DomainNonEmpty(s.nodes, key, d);
    SurviveFacts.ClosedForm(s, key, pods, Replicas(IndexOf(s), r, |pods|), d);
    a := AnswerTo(filter, s, key, urlHost, g, refs, report, domains, [], answers, r, d);
    assert Behind(s, r, c);
  }

  /** An available pod of the Deployment: of one of its ReplicaSets, or its own. */
  ghost predicate DeploymentPod(s: Snapshot, c: Controller, p: Pod) {
    p.Available() &&
    (WorkloadFacts.RolledOut(s, p, c.namespace, c.name)
     || WorkloadFacts.Directly(p, "Deployment", c.namespace, c.name))
  }

  // ---------------------------------------------------------------- how many replicas a fix is about

  /** Every shown fix has a node for each replica it is about: raising the replicas, one for each
      domain; any other rung, as many as the workload declares. */
  lemma ShownCount(filter: Plugins, s: Snapshot, key: string, domains: seq<string>, r: Ref, c: Controller,
                   input: Input, a: Answer, x: Verified)
    requires Describes(s, key, domains, r, c, input) && IsAnswer(filter, s, key, input, a) && x in a.fixes
    ensures TargetReplicas(input, x.fix) > 0
    ensures |VerifyFacts.Placed(filter, s, key, input, x.fix)| ==
      if x.fix.rung == 4 then |domains| else DeclaredCount(c)
  {
    var k :| 1 <= k <= 8 && Fires(input, k) && Keeps(filter, s, key, input, FixOf(input, k))
          && x == VerifiedOf(filter, s, key, input, FixOf(input, k));
    KeptPlaced(filter, s, key, input, x.fix);
    CountOf(input, k);
  }

  lemma KeptPlaced(filter: Plugins, s: Snapshot, key: string, input: Input, f: Fix)
    requires Keeps(filter, s, key, input, f)
    ensures TargetReplicas(input, f) > 0 && |VerifyFacts.Placed(filter, s, key, input, f)| == TargetReplicas(input, f)
  {
    SchedFacts.Accounting(JobOf(filter, s, key, input, f), TargetReplicas(input, f));
  }

  lemma CountOf(input: Input, k: nat)
    requires 1 <= k <= 8 && Fires(input, k) && TargetReplicas(input, FixOf(input, k)) > 0
    ensures TargetReplicas(input, FixOf(input, k)) == if k == 4 then |input.domains| else input.replicas
  {}

  // ---------------------------------------------------------------- when each rung fires

  /** The template's first constraint on the key. */
  ghost predicate FirstOn(cs: seq<SpreadConstraint>, key: string, x: SpreadConstraint) {
    exists i :: FirstAt(cs, key, i) && cs[i] == x
  }

  ghost predicate FirstAt(cs: seq<SpreadConstraint>, key: string, i: int) {
    0 <= i < |cs| && cs[i].topologyKey == key && forall j :: 0 <= j < i ==> cs[j].topologyKey != key
  }

  lemma FirstIs(cs: seq<SpreadConstraint>, key: string, x: SpreadConstraint)
    ensures FirstOn(cs, key, x) <==> SpreadFor(cs, key).Some? && cs[SpreadFor(cs, key).value] == x
  {
    if FirstOn(cs, key, x) {
      var i :| FirstAt(cs, key, i) && cs[i] == x;
      SpreadForAt(cs, key, i);
    }
  }

  /** The rungs in terms of the cluster's objects. The first three, and the seventh, are for
      workloads without a pinned volume: no constraint on the key; a first constraint that is only
      preferred; a first constraint looser than one. */
  lemma SpreadRungsMean(s: Snapshot, key: string, domains: seq<string>, r: Ref, c: Controller, input: Input)
    requires Describes(s, key, domains, r, c, input)
    ensures var cs := c.template.spec.spread;
      var free := !SomeTied(s, key, r);
      && (Fires(input, 1) <==>
            && free && DeclaredCount(c) >= 2 && OwnOrTemplate(c) != map[]
            && forall x :: x in cs ==> x.topologyKey != key)
      && (Fires(input, 2) <==> free && exists x :: FirstOn(cs, key, x) && x.when == ScheduleAnyway)
      && (Fires(input, 3) <==> free && exists x :: FirstOn(cs, key, x) && x.maxSkew > 1)
  {
    var cs := c.template.spec.spread;
    forall x { FirstIs(cs, key, x); }
    if SpreadFor(cs, key).Some? {
      assert FirstOn(cs, key, cs[SpreadFor(cs, key).value]);
      assert cs[SpreadFor(cs, key).value] in cs;
    } else {
      forall x | x in cs ensures x.topologyKey != key { var i :| 0 <= i < |cs| && cs[i] == x; }
    }
  }

  /** The fourth fires when there are fewer declared replicas than domains; the fifth when no budget
      reaches the workload, it declares two replicas and has labels; the sixth when its budget is
      current and its fields forbid every eviction of the declared replicas; the seventh when the
      first available pod has no required and some preferred term on the key, and so does the
      template; the eighth when a replica's volume is pinned. */
  lemma OtherRungsMean(s: Snapshot, key: string, domains: seq<string>, r: Ref, c: Controller, input: Input)
    requires Describes(s, key, domains, r, c, input)
    ensures var pod := Members(IndexOf(s), s.pods, r)[0];
      && (Fires(input, 4) <==> DeclaredCount(c) < |domains|)
      && (Fires(input, 5) <==>
            Unguarded(s, r) && DeclaredCount(c) >= 2 && OwnOrTemplate(c) != map[])
      && (Fires(input, 6) <==>
            DeclaredCount(c) >= 1 && exists b ::
              && GuardedBy(s, r, b) && b.generation == b.observedGeneration && PdbCheck.Forbids(b, DeclaredCount(c)))
      && (Fires(input, 7) <==>
            !SomeTied(s, key, r) && Prefers(pod.spec.antiAffinity, key) && !Requires(pod.spec.antiAffinity, key)
            && Prefers(c.template.spec.antiAffinity, key))
      && (Fires(input, 8) <==> SomeTied(s, key, r))
  {
    PlainRungsMean(s, key, domains, r, c, input);
    RungSixMeans(s, key, domains, r, c, input);
    RungSevenMeans(s, key, domains, r, c, input);
  }

  lemma PlainRungsMean(s: Snapshot, key: string, domains: seq<string>, r: Ref, c: Controller, input: Input)
    requires Describes(s, key, domains, r, c, input)
    ensures Fires4(input) <==> DeclaredCount(c) < |domains|
    ensures Fires5(input) <==>
      Unguarded(s, r) && DeclaredCount(c) >= 2 && OwnOrTemplate(c) != map[]
    ensures Fires8(input) <==> SomeTied(s, key, r)
  {}

  lemma RungSixMeans(s: Snapshot, key: string, domains: seq<string>, r: Ref, c: Controller, input: Input)
    requires Describes(s, key, domains, r, c, input)
    ensures Fires6(input) <==>
      DeclaredCount(c) >= 1 && exists b ::
        && GuardedBy(s, r, b) && b.generation == b.observedGeneration && PdbCheck.Forbids(b, DeclaredCount(c))
  {
    if input.budget.Some? { OneGuard(s, r, input.budget.value, input.budget.value); }
    forall b | GuardedBy(s, r, b) ensures input.budget == Some(b) {
      OneGuard(s, r, b, b);
      OneGuard(s, r, b, input.budget.value);
    }
  }

  lemma RungSevenMeans(s: Snapshot, key: string, domains: seq<string>, r: Ref, c: Controller, input: Input)
    requires Describes(s, key, domains, r, c, input)
    ensures var pod := Members(IndexOf(s), s.pods, r)[0];
      Fires7(input) <==>
        && Prefers(pod.spec.antiAffinity, key) && !Requires(pod.spec.antiAffinity, key)
        && Prefers(c.template.spec.antiAffinity, key)
  {
    Spread.AntiAffinityMeans(Members(IndexOf(s), s.pods, r)[0].spec.antiAffinity, key);
    if c.template.spec.antiAffinity.Some? {
      Spread.MentionsMeans(c.template.spec.antiAffinity.value.preferred, key);
    }
  }

  ghost predicate Prefers(a: Option<AntiAffinity>, key: string) {
    a.Some? && exists t :: t in a.value.preferred && t.topologyKey == key
  }

  ghost predicate Requires(a: Option<AntiAffinity>, key: string) {
    a.Some? && exists t :: t in a.value.required && t.topologyKey == key
  }
}
