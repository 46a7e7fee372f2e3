/** What the survivability report means: the closed forms behind the engine's counting. */
module SurviveFacts {
  import opened Basics
  import opened Cluster
  import opened Workload
  import opened Survive
  import Domain
  import Spread
  import PdbCheck
  import VolumePin
  import DepGraph
  import Propagate

  // ---------------------------------------------------------------- closed form of a verdict

  /** The replica does not outlive `d`: it runs there, or can run nowhere else. */
  ghost predicate Gone(s: Snapshot, key: string, d: string, p: Pod) {
    DomainOfPod(s, key, p) == d || VolumePin.PinnedTo(s, p, key, d)
  }

  ghost predicate AllGone(s: Snapshot, key: string, d: string, pods: seq<Pod>) {
    forall p :: p in pods ==> Gone(s, key, d, p)
  }

  /** Some replica runs on a node whose domain nobody knows. */
  ghost predicate Unplaced(s: Snapshot, key: string, pods: seq<Pod>) {
    exists p :: p in pods && DomainOfPod(s, key, p) == ""
  }

  /** How many replicas run outside `d`. */
  ghost function Outside(s: Snapshot, key: string, d: string, pods: seq<Pod>): (r: nat) {
    |Filter(pods, RunsOutside(s, key, d))|
  }

  /** The counts the engine keeps, as statements about the pods. */
  lemma Counts(s: Snapshot, key: string, pods: seq<Pod>, d: string)
    ensures |pods| - Spread.At(PlacementOf(s, key, pods), d) == Outside(s, key, d, pods)
    ensures Outside(s, key, d, pods) == 0 <==> forall p :: p in pods ==> DomainOfPod(s, key, p) == d
    ensures Spread.At(PlacementOf(s, key, pods), d) > 0 <==> exists p :: p in pods && DomainOfPod(s, key, p) == d
  {
    var f, g := RunsIn(s, key, d), RunsOutside(s, key, d);
    PlacementCounts(s, key, pods, d);
    FilterSplit(pods, f, g);
    FilterMembers(pods, f);
    FilterMembers(pods, g);
    if |Filter(pods, f)| > 0 { assert Filter(pods, f)[0] in Filter(pods, f); }
    if |Filter(pods, g)| > 0 { assert Filter(pods, g)[0] in Filter(pods, g); }
  }

  /** Nobody unpinned remains outside iff the stranded replicas are all those outside. */
  lemma StrandedCount(s: Snapshot, key: string, pods: seq<Pod>, d: string)
    ensures |Filter(pods, Stranded(s, key, d))| <= Outside(s, key, d, pods)
    ensures |Filter(pods, Stranded(s, key, d))| == Outside(s, key, d, pods) <==> AllGone(s, key, d, pods)
  {
    FilterImplies(pods, Stranded(s, key, d), RunsOutside(s, key, d));
  }

  /** The four outcomes in closed form. Lost: every replica is gone with `d`. Otherwise
      Unknown: a replica is on an unlabelled node, or the budget is unreadable. Otherwise
      Degraded: fewer replicas run outside `d` (pinned or not) than the budget keeps. */
  lemma ClosedForm(s: Snapshot, key: string, pods: seq<Pod>, replicas: int, d: string)
    requires pods != [] && d != ""
    ensures var o := OutcomeOf(s, key, pods, replicas, d);
      var demand := PdbCheck.DesiredAvailable(s.budgets, pods[0], replicas);
      && (o == Lost <==> AllGone(s, key, d, pods))
      && (o == Unknown <==> !AllGone(s, key, d, pods) && (Unplaced(s, key, pods) || demand.Unreadable?))
      && (o == Degraded <==> !AllGone(s, key, d, pods) && !Unplaced(s, key, pods)
                             && demand.Keep? && Outside(s, key, d, pods) < demand.n)
  {
    Counts(s, key, pods, d);
    Counts(s, key, pods, "");
    StrandedCount(s, key, pods, d);
    if Outside(s, key, d, pods) == 0 {
      assert !Unplaced(s, key, pods);
    }
  }

  /** A clean bill is earned: every replica's domain is known and one of them, free to run
      elsewhere, is outside. */
  lemma SurvivesMeans(s: Snapshot, key: string, pods: seq<Pod>, replicas: int, d: string) returns (p: Pod)
    requires pods != [] && d != ""
    requires OutcomeOf(s, key, pods, replicas, d) == Survives
    ensures !Unplaced(s, key, pods)
    ensures p in pods && DomainOfPod(s, key, p) != d && DomainOfPod(s, key, p) != ""
    ensures !VolumePin.PinnedTo(s, p, key, d)
  {
    ClosedForm(s, key, pods, replicas, d);
    p :| p in pods && !Gone(s, key, d, p);
  }

  /** Without pins a workload is lost with at most one domain. */
  lemma LostOnce(s: Snapshot, key: string, pods: seq<Pod>, replicas: int, d: string, e: string)
    requires pods != [] && d != "" && e != ""
    requires forall p :: p in pods ==> !VolumePin.PinnedTo(s, p, key, d) && !VolumePin.PinnedTo(s, p, key, e)
    requires OutcomeOf(s, key, pods, replicas, d) == Lost && OutcomeOf(s, key, pods, replicas, e) == Lost
    ensures d == e
  {
    ClosedForm(s, key, pods, replicas, d);
    ClosedForm(s, key, pods, replicas, e);
    assert Gone(s, key, d, pods[0]) && Gone(s, key, e, pods[0]);
  }

  // ---------------------------------------------------------------- the report

  /** Verdict `j` of a domain is about the j-th workload and has the counted outcome. */
  lemma VerdictRow(s: Snapshot, key: string, urlHost: DepGraph.UrlHost, g: DepGraph.Graph, refs: seq<Ref>,
                   report: Report, i: nat, j: nat)
    requires IsReport(s, IndexOf(s), key, urlHost, g, refs, report)
    requires i < |report.domains| && j < |report.domains[i].verdicts|
    ensures |report.domains[i].verdicts| == |refs|
    ensures report.domains[i].verdicts[j].workload == refs[j] && refs[j] in refs
    ensures var pods := Members(IndexOf(s), s.pods, refs[j]);
      report.domains[i].verdicts[j].outcome
        == OutcomeOf(s, key, pods, Replicas(IndexOf(s), refs[j], |pods|), report.domains[i].domain)
  {
    assert IsDomainResult(s, IndexOf(s), key, g, refs, |report.domains|, report.domains[i]);
    assert VerdictAt(s, IndexOf(s), key, refs, |report.domains|, report.domains[i], j);
  }

  /** The place of a domain in the report. */
  lemma DomainRow(s: Snapshot, key: string, report: Report, d: string) returns (i: nat)
    requires Lists(DomainNames(report), Domain.DomainsOf(s.nodes, key)) && d in Domain.DomainsOf(s.nodes, key)
    ensures i < |report.domains| && report.domains[i].domain == d
    ensures forall j :: 0 <= j < |report.domains| && report.domains[j].domain == d ==> j == i
  {
    assert d in DomainNames(report);
    i :| 0 <= i < |report.domains| && DomainNames(report)[i] == d;
    forall j | 0 <= j < |report.domains| && j != i ensures report.domains[j].domain != d {
      assert DomainNames(report)[j] != DomainNames(report)[i];
    }
  }

  /** Every workload with an available pod has exactly one verdict in every domain, with the
      closed-form outcome, and the totals count each outcome once. */
  lemma ReportComplete(s: Snapshot, key: string, urlHost: DepGraph.UrlHost, g: DepGraph.Graph, refs: seq<Ref>,
                       report: Report, i: nat, r: Ref) returns (j: nat)
    requires IsReport(s, IndexOf(s), key, urlHost, g, refs, report)
    requires i < |report.domains| && Members(IndexOf(s), s.pods, r) != []
    ensures j < |report.domains[i].verdicts| && report.domains[i].verdicts[j].workload == r
    ensures forall k :: 0 <= k < |report.domains[i].verdicts| && report.domains[i].verdicts[k].workload == r ==> k == j
    ensures var pods := Members(IndexOf(s), s.pods, r);
      report.domains[i].verdicts[j].outcome
        == OutcomeOf(s, key, pods, Replicas(IndexOf(s), r, |pods|), report.domains[i].domain)
    ensures report.domains[i].domain in Domain.DomainsOf(s.nodes, key)
    ensures report.domains[i].lost == |Filter(report.domains[i].verdicts, HasOutcome(Lost))|
    ensures report.domains[i].degraded == |Filter(report.domains[i].verdicts, HasOutcome(Degraded))|
  {
    ReportTotals(s, key, urlHost, g, refs, report, i);
    assert r in refs;
    j :| 0 <= j < |refs| && refs[j] == r;
    VerdictRow(s, key, urlHost, g, refs, report, i, j);
    OnlyRow(s, key, urlHost, g, refs, report, i, j);
  }

  lemma ReportTotals(s: Snapshot, key: string, urlHost: DepGraph.UrlHost, g: DepGraph.Graph, refs: seq<Ref>,
                     report: Report, i: nat)
    requires IsReport(s, IndexOf(s), key, urlHost, g, refs, report) && i < |report.domains|
    ensures report.domains[i].domain in Domain.DomainsOf(s.nodes, key) && |report.domains[i].verdicts| == |refs|
    ensures report.domains[i].lost == |Filter(report.domains[i].verdicts, HasOutcome(Lost))|
    ensures report.domains[i].degraded == |Filter(report.domains[i].verdicts, HasOutcome(Degraded))|
  {
    assert IsDomainResult(s, IndexOf(s), key, g, refs, |report.domains|, report.domains[i]);
    assert DomainNames(report)[i] in DomainNames(report);
  }

  /** The verdicts are about different workloads. */
  lemma OnlyRow(s: Snapshot, key: string, urlHost: DepGraph.UrlHost, g: DepGraph.Graph, refs: seq<Ref>,
                report: Report, i: nat, j: nat)
    requires IsReport(s, IndexOf(s), key, urlHost, g, refs, report)
    requires i < |report.domains| && j < |report.domains[i].verdicts|
    ensures forall k :: 0 <= k < |report.domains[i].verdicts| && k != j ==>
      report.domains[i].verdicts[k].workload != report.domains[i].verdicts[j].workload
  {
    VerdictRow(s, key, urlHost, g, refs, report, i, j);
    forall k | 0 <= k < |report.domains[i].verdicts| && k != j
      ensures report.domains[i].verdicts[k].workload != report.domains[i].verdicts[j].workload
    {
      VerdictRow(s, key, urlHost, g, refs, report, i, k);
    }
  }

  /** A verdict is about a workload that has available pods. */
  lemma VerdictOwner(s: Snapshot, key: string, urlHost: DepGraph.UrlHost, g: DepGraph.Graph, refs: seq<Ref>,
                     report: Report, i: nat, j: nat)
    requires IsReport(s, IndexOf(s), key, urlHost, g, refs, report)
    requires i < |report.domains| && j < |report.domains[i].verdicts|
    ensures Members(IndexOf(s), s.pods, report.domains[i].verdicts[j].workload) != []
  {
    VerdictRow(s, key, urlHost, g, refs, report, i, j);
  }

  // ---------------------------------------------------------------- what a graph means

  ghost predicate KindIs(s: Snapshot, idx: Index, k: ServiceKey, kind: DepGraph.EdgeKind) {
    var services := IndexBy(s.services, DepGraph.ServiceKeyOf());
    k in services && DepGraph.ClassifyEdge(services[k], DepGraph.Backing(s, idx, s.slices, k) != {}) == kind
  }

  /** `a` names, in a literal value, a Service whose endpoints are pods of `b`. */
  ghost predicate DependsOn(s: Snapshot, idx: Index, urlHost: DepGraph.UrlHost, a: Ref, b: Ref) {
    exists k :: DepGraph.Mentions(s, idx, urlHost, s.pods, a, k)
      && KindIs(s, idx, k, DepGraph.Resolved) && b in DepGraph.Backing(s, idx, s.slices, k)
  }

  ghost predicate DependsOnNobody(s: Snapshot, idx: Index, urlHost: DepGraph.UrlHost, a: Ref) {
    exists k :: DepGraph.Mentions(s, idx, urlHost, s.pods, a, k) && KindIs(s, idx, k, DepGraph.Unresolved)
  }

  lemma OutEdges(s: Snapshot, idx: Index, urlHost: DepGraph.UrlHost, g: DepGraph.Graph, a: Ref, e: DepGraph.Edge)
    requires DepGraph.IsGraph(s, idx, urlHost, g)
    ensures e in DepGraph.Out(g.byFrom, a) <==> e in g.edges && e.from == a
  {
    DepGraph.SameElements(DepGraph.Out(g.byFrom, a), Filter(g.edges, DepGraph.FromIs(a)));
    FilterMembers(g.edges, DepGraph.FromIs(a));
  }

  lemma EdgeMeaning(s: Snapshot, idx: Index, urlHost: DepGraph.UrlHost, g: DepGraph.Graph, a: Ref, e: DepGraph.Edge)
    requires DepGraph.IsGraph(s, idx, urlHost, g) && e in DepGraph.Out(g.byFrom, a)
    ensures DepGraph.Mentions(s, idx, urlHost, s.pods, a, e.service)
    ensures KindIs(s, idx, e.service, e.kind)
    ensures e.kind == DepGraph.Resolved ==>
      forall b :: b in e.backers <==> b in DepGraph.Backing(s, idx, s.slices, e.service)
  {
    OutEdges(s, idx, urlHost, g, a, e);
    assert DepGraph.IsEdge(s, idx, e);
  }

  lemma EdgeFor(s: Snapshot, idx: Index, urlHost: DepGraph.UrlHost, g: DepGraph.Graph, a: Ref, k: ServiceKey)
    returns (e: DepGraph.Edge)
    requires DepGraph.IsGraph(s, idx, urlHost, g) && DepGraph.Mentions(s, idx, urlHost, s.pods, a, k)
    ensures e in DepGraph.Out(g.byFrom, a) && e.service == k
  {
    e :| e in g.edges && e.from == a && e.service == k;
    OutEdges(s, idx, urlHost, g, a, e);
  }

  lemma UsesMeaning(s: Snapshot, idx: Index, urlHost: DepGraph.UrlHost, g: DepGraph.Graph, a: Ref, b: Ref)
    requires DepGraph.IsGraph(s, idx, urlHost, g)
    ensures Propagate.Uses(g, a, b) <==> DependsOn(s, idx, urlHost, a, b)
  {
    if Propagate.Uses(g, a, b) {
      var e :| e in DepGraph.Out(g.byFrom, a) && e.kind == DepGraph.Resolved && b in e.backers;
      EdgeMeaning(s, idx, urlHost, g, a, e);
    }
    if DependsOn(s, idx, urlHost, a, b) {
      var k :| DepGraph.Mentions(s, idx, urlHost, s.pods, a, k)
            && KindIs(s, idx, k, DepGraph.Resolved) && b in DepGraph.Backing(s, idx, s.slices, k);
      var e := EdgeFor(s, idx, urlHost, g, a, k);
      EdgeMeaning(s, idx, urlHost, g, a, e);
    }
  }

  lemma DanglesMeaning(s: Snapshot, idx: Index, urlHost: DepGraph.UrlHost, g: DepGraph.Graph, a: Ref)
    requires DepGraph.IsGraph(s, idx, urlHost, g)
    ensures Propagate.Dangles(g, a) <==> DependsOnNobody(s, idx, urlHost, a)
  {
    if Propagate.Dangles(g, a) {
      var e :| e in DepGraph.Out(g.byFrom, a) && e.kind == DepGraph.Unresolved;
      EdgeMeaning(s, idx, urlHost, g, a, e);
    }
    if DependsOnNobody(s, idx, urlHost, a) {
      var k :| DepGraph.Mentions(s, idx, urlHost, s.pods, a, k) && KindIs(s, idx, k, DepGraph.Unresolved);
      var e := EdgeFor(s, idx, urlHost, g, a, k);
      EdgeMeaning(s, idx, urlHost, g, a, e);
    }
  }

  /** The search's notion of use is the snapshot's, in whatever order ties were sorted. */
  lemma GraphMeaning(s: Snapshot, idx: Index, urlHost: DepGraph.UrlHost, g: DepGraph.Graph, a: Ref, b: Ref)
    requires DepGraph.IsGraph(s, idx, urlHost, g)
    ensures Propagate.Uses(g, a, b) <==> DependsOn(s, idx, urlHost, a, b)
    ensures Propagate.Dangles(g, a) <==> DependsOnNobody(s, idx, urlHost, a)
    ensures a in g.byFrom <==> exists k :: DepGraph.Mentions(s, idx, urlHost, s.pods, a, k)
  {
    UsesMeaning(s, idx, urlHost, g, a, b);
    DanglesMeaning(s, idx, urlHost, g, a);
    if a in g.byFrom {
      EdgeMeaning(s, idx, urlHost, g, a, g.byFrom[a][0]);
    }
    if k :| DepGraph.Mentions(s, idx, urlHost, s.pods, a, k) {
      var e := EdgeFor(s, idx, urlHost, g, a, k);
    }
  }

  // ---------------------------------------------------------------- budgets decide nothing here

  /** Two snapshots of one cluster that differ at most in their budgets. */
  ghost predicate SameButBudgets(s: Snapshot, t: Snapshot) {
    t == s.(budgets := t.budgets)
  }

  lemma {:induction false} SamePlacement(s: Snapshot, t: Snapshot, key: string, pods: seq<Pod>)
    requires SameButBudgets(s, t)
    ensures PlacementOf(s, key, pods) == PlacementOf(t, key, pods)
  {
    if pods != [] { SamePlacement(s, t, key, pods[..|pods| - 1]); }
  }

  /** Readable budgets never change who is lost or unknown. */
  lemma BudgetsNeverDecide(s: Snapshot, t: Snapshot, key: string, pods: seq<Pod>, replicas: int, d: string)
    requires SameButBudgets(s, t) && PdbCheck.Parseable(s.budgets) && PdbCheck.Parseable(t.budgets)
    requires pods != [] && d != ""
    ensures OutcomeOf(s, key, pods, replicas, d) == Lost <==> OutcomeOf(t, key, pods, replicas, d) == Lost
    ensures OutcomeOf(s, key, pods, replicas, d) == Unknown <==> OutcomeOf(t, key, pods, replicas, d) == Unknown
  {
    ClosedForm(s, key, pods, replicas, d);
    ClosedForm(t, key, pods, replicas, d);
    PdbCheck.ParseableNeverUnreadable(s.budgets, pods[0], replicas);
    PdbCheck.ParseableNeverUnreadable(t.budgets, pods[0], replicas);
    forall p | p in pods ensures Gone(s, key, d, p) <==> Gone(t, key, d, p) {
      VolumePin.SamePins(s, t, p.namespace, p.spec.claims, key);
    }
    assert forall p :: p in pods ==> DomainOfPod(s, key, p) == DomainOfPod(t, key, p);
  }

  ghost predicate HasVerdict(res: DomainResult, r: Ref, o: Outcome) {
    exists j :: 0 <= j < |res.verdicts| && res.verdicts[j].workload == r && res.verdicts[j].outcome == o
  }

  ghost predicate IsOutcome(s: Snapshot, key: string, r: Ref, d: string, o: Outcome) {
    var pods := Members(IndexOf(s), s.pods, r);
    pods != [] && OutcomeOf(s, key, pods, Replicas(IndexOf(s), r, |pods|), d) == o
  }

  /** The report's verdicts, as a relation. */
  lemma VerdictIs(s: Snapshot, key: string, urlHost: DepGraph.UrlHost, g: DepGraph.Graph, refs: seq<Ref>,
                  report: Report, i: nat, r: Ref, o: Outcome)
    requires IsReport(s, IndexOf(s), key, urlHost, g, refs, report) && i < |report.domains|
    ensures HasVerdict(report.domains[i], r, o) <==> IsOutcome(s, key, r, report.domains[i].domain, o)
  {
    var res := report.domains[i];
    if HasVerdict(res, r, o) {
      var j :| 0 <= j < |res.verdicts| && res.verdicts[j].workload == r && res.verdicts[j].outcome == o;
      VerdictRow(s, key, urlHost, g, refs, report, i, j);
    }
    if IsOutcome(s, key, r, res.domain, o) {
      var j := ReportComplete(s, key, urlHost, g, refs, report, i, r);
    }
  }

  lemma SameFailing(s: Snapshot, t: Snapshot, idx: Index, urlHost: DepGraph.UrlHost,
                    g: DepGraph.Graph, h: DepGraph.Graph, failed: set<Ref>, r: Ref)
    requires DepGraph.IsGraph(s, idx, urlHost, g) && DepGraph.IsGraph(s, idx, urlHost, h)
    requires Propagate.CanFail(g, failed, r)
    ensures Propagate.CanFail(h, failed, r)
  {
    var p :| Propagate.FailingPath(g, failed, p) && p[0] == r;
    forall i | 0 <= i < |p| - 1 ensures Propagate.Uses(h, p[i], p[i + 1]) {
      assert Propagate.Uses(g, p[i], p[i + 1]);
      GraphMeaning(s, idx, urlHost, g, p[i], p[i + 1]);
      GraphMeaning(s, idx, urlHost, h, p[i], p[i + 1]);
    }
    GraphMeaning(s, idx, urlHost, g, p[|p| - 1], r);
    GraphMeaning(s, idx, urlHost, h, p[|p| - 1], r);
    assert Propagate.FailingPath(h, failed, p);
  }

  /** Building the graph never reads the budgets. */
  lemma SameGraph(s: Snapshot, t: Snapshot, urlHost: DepGraph.UrlHost, g: DepGraph.Graph)
    requires SameButBudgets(s, t)
    requires DepGraph.IsGraph(t, IndexOf(t), urlHost, g)
    ensures IndexOf(s) == IndexOf(t) && DepGraph.IsGraph(s, IndexOf(s), urlHost, g)
  {
    var idx := IndexOf(s);
    forall k ensures DepGraph.Backing(s, idx, s.slices, k) == DepGraph.Backing(t, idx, t.slices, k) {
      SameBacking(s, t, idx, s.slices, k);
    }
    forall e | e in g.edges ensures DepGraph.IsEdge(s, idx, e) {
      assert DepGraph.IsEdge(t, idx, e);
    }
    forall r, k ensures DepGraph.Mentions(s, idx, urlHost, s.pods, r, k)
                   <==> DepGraph.Mentions(t, idx, urlHost, t.pods, r, k) {
      forall p ensures DepGraph.PodNames(s, urlHost, p, k) <==> DepGraph.PodNames(t, urlHost, p, k) {
        SameNames(s, t, urlHost, p, k);
      }
    }
  }

  lemma SameNames(s: Snapshot, t: Snapshot, urlHost: DepGraph.UrlHost, p: Pod, k: ServiceKey)
    requires s.services == t.services
    ensures DepGraph.PodNames(s, urlHost, p, k) <==> DepGraph.PodNames(t, urlHost, p, k)
  {
    assert forall v :: DepGraph.NamedService(s, urlHost, p.namespace, v)
                    == DepGraph.NamedService(t, urlHost, p.namespace, v);
  }

  lemma {:induction false} SameBacking(s: Snapshot, t: Snapshot, idx: Index, slices: seq<EndpointSlice>, k: ServiceKey)
    requires SameButBudgets(s, t)
    ensures DepGraph.Backing(s, idx, slices, k) == DepGraph.Backing(t, idx, slices, k)
  {
    if slices != [] {
      SameBacking(s, t, idx, slices[..|slices| - 1], k);
      SameOwners(s, t, idx, slices[|slices| - 1].targets);
    }
  }

  lemma {:induction false} SameOwners(s: Snapshot, t: Snapshot, idx: Index, targets: seq<Target>)
    requires SameButBudgets(s, t)
    ensures DepGraph.Owners(s, idx, targets) == DepGraph.Owners(t, idx, targets)
  {
    if targets != [] { SameOwners(s, t, idx, targets[..|targets| - 1]); }
  }

  ghost predicate Impaired(res: DomainResult, r: Ref) { Propagate.Reports(res.impairments, r) }

  lemma FailedMembers(res: DomainResult, r: Ref)
    ensures r in FailedRefs(res.verdicts) <==> HasVerdict(res, r, Lost) || HasVerdict(res, r, Unknown)
    ensures r in LostRefs(res.verdicts) <==> HasVerdict(res, r, Lost)
  {}

  /** A domain's impairments, read off the snapshot. */
  lemma ImpairedIs(s: Snapshot, key: string, urlHost: DepGraph.UrlHost, g: DepGraph.Graph, refs: seq<Ref>,
                   report: Report, i: nat, r: Ref)
    requires IsReport(s, IndexOf(s), key, urlHost, g, refs, report) && i < |report.domains|
    ensures Impaired(report.domains[i], r) <==>
      && r in g.byFrom
      && !HasVerdict(report.domains[i], r, Lost)
      && Propagate.CanFail(g, FailedRefs(report.domains[i].verdicts), r)
  {
    var res := report.domains[i];
    assert IsDomainResult(s, IndexOf(s), key, g, refs, |report.domains|, res);
    FailedMembers(res, r);
    var failed, lost := FailedRefs(res.verdicts), LostRefs(res.verdicts);
    if Impaired(res, r) {
      var k :| 0 <= k < |res.impairments| && res.impairments[k].workload == r;
      assert Propagate.Impairs(g, failed, lost, r);
    }
    if r in g.byFrom && !HasVerdict(res, r, Lost) && Propagate.CanFail(g, failed, r) {
      assert Propagate.Impairs(g, failed, lost, r);
    }
  }

  /** A chain of workloads, each naming a Service of the next, that ends at one whose Service has
      no backer, or at one that is lost or unknown without `d`. */
  ghost predicate ChainToFailure(s: Snapshot, key: string, urlHost: DepGraph.UrlHost, d: string, p: seq<Ref>) {
    && p != []
    && (forall i :: 0 <= i < |p| - 1 ==> DependsOn(s, IndexOf(s), urlHost, p[i], p[i + 1]))
    && (DependsOnNobody(s, IndexOf(s), urlHost, p[|p| - 1])
        || (|p| >= 2 && (IsOutcome(s, key, p[|p| - 1], d, Lost) || IsOutcome(s, key, p[|p| - 1], d, Unknown))))
  }

  /** Not lost itself, but such a chain begins at it. */
  ghost predicate Suffers(s: Snapshot, key: string, urlHost: DepGraph.UrlHost, d: string, r: Ref) {
    !IsOutcome(s, key, r, d, Lost) && exists p :: ChainToFailure(s, key, urlHost, d, p) && p[0] == r
  }

  lemma ChainMeaning(s: Snapshot, key: string, urlHost: DepGraph.UrlHost, g: DepGraph.Graph, refs: seq<Ref>,
                     report: Report, i: nat, p: seq<Ref>)
    requires IsReport(s, IndexOf(s), key, urlHost, g, refs, report) && i < |report.domains|
    ensures Propagate.FailingPath(g, FailedRefs(report.domains[i].verdicts), p)
       <==> ChainToFailure(s, key, urlHost, report.domains[i].domain, p)
  {
    if p != [] {
      forall j | 0 <= j < |p| - 1
        ensures Propagate.Uses(g, p[j], p[j + 1]) <==> DependsOn(s, IndexOf(s), urlHost, p[j], p[j + 1])
      {
        GraphMeaning(s, IndexOf(s), urlHost, g, p[j], p[j + 1]);
      }
      var last := p[|p| - 1];
      GraphMeaning(s, IndexOf(s), urlHost, g, last, last);
      FailedMembers(report.domains[i], last);
      VerdictIs(s, key, urlHost, g, refs, report, i, last, Lost);
      VerdictIs(s, key, urlHost, g, refs, report, i, last, Unknown);
    }
  }

  /** The same without the graph: who is impaired, in the snapshot's own terms. */
  lemma ImpairedMeans(s: Snapshot, key: string, urlHost: DepGraph.UrlHost, g: DepGraph.Graph, refs: seq<Ref>,
                      report: Report, i: nat, r: Ref)
    requires IsReport(s, IndexOf(s), key, urlHost, g, refs, report) && i < |report.domains|
    ensures Impaired(report.domains[i], r) <==> Suffers(s, key, urlHost, report.domains[i].domain, r)
  {
    var failed, d := FailedRefs(report.domains[i].verdicts), report.domains[i].domain;
    ImpairedIs(s, key, urlHost, g, refs, report, i, r);
    VerdictIs(s, key, urlHost, g, refs, report, i, r, Lost);
    if Propagate.CanFail(g, failed, r) {
      var p :| Propagate.FailingPath(g, failed, p) && p[0] == r;
      ChainMeaning(s, key, urlHost, g, refs, report, i, p);
    }
    if p :| ChainToFailure(s, key, urlHost, d, p) && p[0] == r {
      ChainMeaning(s, key, urlHost, g, refs, report, i, p);
      GraphMeaning(s, IndexOf(s), urlHost, g, r, r);
      assert DependsOnNobody(s, IndexOf(s), urlHost, r) || DependsOn(s, IndexOf(s), urlHost, p[0], p[1]);
    }
  }

  /** Two reports on snapshots that differ only in readable budgets agree, domain by domain,
      on who is lost, who is unknown and who is impaired. */
  lemma BudgetsNeverDecideReport(
    s: Snapshot, t: Snapshot, key: string, urlHost: DepGraph.UrlHost,
    g: DepGraph.Graph, h: DepGraph.Graph, refs: seq<Ref>, refs': seq<Ref>, a: Report, b: Report, i: nat, j: nat, r: Ref)
    requires SameButBudgets(s, t) && PdbCheck.Parseable(s.budgets) && PdbCheck.Parseable(t.budgets)
    requires IsReport(s, IndexOf(s), key, urlHost, g, refs, a) && IsReport(t, IndexOf(t), key, urlHost, h, refs', b)
    requires i < |a.domains| && j < |b.domains| && a.domains[i].domain == b.domains[j].domain
    ensures HasVerdict(a.domains[i], r, Lost) <==> HasVerdict(b.domains[j], r, Lost)
    ensures HasVerdict(a.domains[i], r, Unknown) <==> HasVerdict(b.domains[j], r, Unknown)
    ensures Impaired(a.domains[i], r) <==> Impaired(b.domains[j], r)
  {
    SameGraph(s, t, urlHost, h);
    SameVerdicts(s, t, key, urlHost, g, h, refs, refs', a, b, i, j);
    var failed := FailedRefs(a.domains[i].verdicts);
    assert failed == FailedRefs(b.domains[j].verdicts) by {
      forall q ensures q in failed <==> q in FailedRefs(b.domains[j].verdicts) {
        FailedMembers(a.domains[i], q);
        FailedMembers(b.domains[j], q);
      }
    }
    ImpairedIs(s, key, urlHost, g, refs, a, i, r);
    ImpairedIs(t, key, urlHost, h, refs', b, j, r);
    GraphMeaning(s, IndexOf(s), urlHost, g, r, r);
    GraphMeaning(s, IndexOf(s), urlHost, h, r, r);
    if Propagate.CanFail(g, failed, r) { SameFailing(s, t, IndexOf(s), urlHost, g, h, failed, r); }
    if Propagate.CanFail(h, failed, r) { SameFailing(s, t, IndexOf(s), urlHost, h, g, failed, r); }
  }

  lemma SameVerdicts(
    s: Snapshot, t: Snapshot, key: string, urlHost: DepGraph.UrlHost,
    g: DepGraph.Graph, h: DepGraph.Graph, refs: seq<Ref>, refs': seq<Ref>, a: Report, b: Report, i: nat, j: nat)
    requires SameButBudgets(s, t) && PdbCheck.Parseable(s.budgets) && PdbCheck.Parseable(t.budgets)
    requires IsReport(s, IndexOf(s), key, urlHost, g, refs, a) && IsReport(t, IndexOf(t), key, urlHost, h, refs', b)
    requires i < |a.domains| && j < |b.domains| && a.domains[i].domain == b.domains[j].domain
    ensures forall r :: HasVerdict(a.domains[i], r, Lost) <==> HasVerdict(b.domains[j], r, Lost)
    ensures forall r :: HasVerdict(a.domains[i], r, Unknown) <==> HasVerdict(b.domains[j], r, Unknown)
  {
    var d := a.domains[i].domain;
    assert DomainNames(a)[i] in DomainNames(a);
    Domain.DomainNonEmpty(s.nodes, key, d);
    forall r, o | o == Lost || o == Unknown
      ensures HasVerdict(a.domains[i], r, o) <==> HasVerdict(b.domains[j], r, o)
    {
      VerdictIs(s, key, urlHost, g, refs, a, i, r, o);
      VerdictIs(t, key, urlHost, h, refs', b, j, r, o);
      var pods := Members(IndexOf(s), s.pods, r);
      if pods != [] { BudgetsNeverDecide(s, t, key, pods, Replicas(IndexOf(s), r, |pods|), d); }
    }
  }
}
