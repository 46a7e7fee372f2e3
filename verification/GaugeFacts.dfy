/** Whether two gauges keep what their descriptions promise: exactly when, and where not. */
module GaugeFacts {
  import opened Basics
  import opened Cluster
  import opened Workload
  import opened Sched
  import opened Survive
  import opened Exporter
  import opened ExporterFacts
  import SchedFacts
  import SurviveFacts
  import DrainFacts
  import PdbCheck
  import DepGraph
  import Match
  import Domain

  // ---------------------------------------------------------------- "can never permit an eviction"

  /** The budget gauge keeps its promise for a placed budget exactly when the fields forbid every
      eviction, or the block is neither a stale status nor an overlap. */
  lemma BudgetGaugeMeans(key: string, filter: Plugins, urlHost: DepGraph.UrlHost, h: seq<Cycle>, c: Cycle,
                         failures: seq<Cycle>, k: nat)
    requires c.Completed? && Genuine(key, filter, urlHost, c) && AllAborted(failures)
    requires SchedFacts.Seedable(c.snapshot.pods) && PdbCheck.UniqueKeys(c.snapshot.budgets)
    requires k < |c.snapshot.budgets| && DrainFacts.AllPlaced(c.snapshot, key, c.snapshot.budgets[k])
    ensures var s, b := c.snapshot, c.snapshot.budgets[k];
      (b.Key() in Shown(h + [c] + failures).unsatisfiable <==> !DrainFacts.CanEvict(filter, s, key, b)) <==>
      || PdbCheck.Forbids(b, |DrainFacts.Covered(s, b)|)
      || PdbCheck.BlockOf(s.budgets, s.pods, b) !in {PdbCheck.StaleStatus, PdbCheck.MultiplePDBs}
  {
    var s, b := c.snapshot, c.snapshot.budgets[k];
    BudgetGauge(key, filter, urlHost, h, c, failures, b.Key());
    forall a | a in s.budgets && a.Key() == b.Key() ensures a == b {
      var j :| 0 <= j < |s.budgets| && s.budgets[j] == a;
      assert j == k;
    }
    DrainFacts.BlockedMeansNever(filter, s, key, k);
  }

  // ---------------------------------------------------------------- "survives its own pod loss"

  ghost predicate HasPods(s: Snapshot, r: Ref) { exists p :: p in s.pods && RefOf(IndexOf(s), p) == r }

  /** No two workloads share a label value. */
  ghost predicate LabelsTellApart(s: Snapshot) {
    forall q, r :: HasPods(s, q) && HasPods(s, r) && q.Key() == r.Key() ==> q == r
  }

  /** A chain to a failure begins at the workload. */
  ghost predicate Chained(s: Snapshot, key: string, urlHost: DepGraph.UrlHost, d: string, r: Ref) {
    exists p :: SurviveFacts.ChainToFailure(s, key, urlHost, d, p) && p[0] == r
  }

  lemma MentionsHasPods(s: Snapshot, urlHost: DepGraph.UrlHost, r: Ref, k: ServiceKey)
    requires DepGraph.Mentions(s, IndexOf(s), urlHost, s.pods, r, k)
    ensures HasPods(s, r)
  {
    var p :| p in s.pods && RefOf(IndexOf(s), p) == r && DepGraph.PodNames(s, urlHost, p, k);
  }

  lemma DependentHasPods(s: Snapshot, urlHost: DepGraph.UrlHost, a: Ref, b: Ref)
    ensures SurviveFacts.DependsOn(s, IndexOf(s), urlHost, a, b) ==> HasPods(s, a)
    ensures SurviveFacts.DependsOnNobody(s, IndexOf(s), urlHost, a) ==> HasPods(s, a)
  {
    if SurviveFacts.DependsOn(s, IndexOf(s), urlHost, a, b) {
      var k :| DepGraph.Mentions(s, IndexOf(s), urlHost, s.pods, a, k)
        && SurviveFacts.KindIs(s, IndexOf(s), k, DepGraph.Resolved)
        && b in DepGraph.Backing(s, IndexOf(s), s.slices, k);
      MentionsHasPods(s, urlHost, a, k);
    }
    if SurviveFacts.DependsOnNobody(s, IndexOf(s), urlHost, a) {
      var k :| DepGraph.Mentions(s, IndexOf(s), urlHost, s.pods, a, k)
        && SurviveFacts.KindIs(s, IndexOf(s), k, DepGraph.Unresolved);
      MentionsHasPods(s, urlHost, a, k);
    }
  }

  lemma ChainedHasPods(s: Snapshot, key: string, urlHost: DepGraph.UrlHost, d: string, r: Ref)
    requires Chained(s, key, urlHost, d, r)
    ensures HasPods(s, r)
  {
    var p :| SurviveFacts.ChainToFailure(s, key, urlHost, d, p) && p[0] == r;
    DependentHasPods(s, urlHost, r, if |p| > 1 then p[1] else r);
  }

  lemma AnalysedHasPods(s: Snapshot, r: Ref)
    requires Analysed(s, r)
    ensures HasPods(s, r)
  {
    var pods := Members(IndexOf(s), s.pods, r);
    MembersOf(IndexOf(s), s.pods, r);
    assert pods[0] in pods;
  }

  /** When no two workloads share a label value, the gauge is that workload's alone. */
  lemma ImpairedAlone(key: string, filter: Plugins, urlHost: DepGraph.UrlHost, h: seq<Cycle>, c: Cycle,
                      failures: seq<Cycle>, r: Ref, d: string)
    requires c.Completed? && Genuine(key, filter, urlHost, c) && AllAborted(failures)
    requires LabelsTellApart(c.snapshot) && Analysed(c.snapshot, r) && d in Domain.DomainsOf(c.snapshot.nodes, key)
    ensures var m := Shown(h + [c] + failures).impaired;
      (r.Key(), d) in m && (m[(r.Key(), d)] == 1 <==> SurviveFacts.Suffers(c.snapshot, key, urlHost, d, r))
  {
    ImpairedGauge(key, filter, urlHost, h, c, failures, r, d);
    AnalysedHasPods(c.snapshot, r);
    forall q: Ref | q.Key() == r.Key() && SurviveFacts.Suffers(c.snapshot, key, urlHost, d, q) ensures q == r {
      assert Chained(c.snapshot, key, urlHost, d, q);
      ChainedHasPods(c.snapshot, key, urlHost, d, q);
    }
  }

  /** Then the impaired gauge keeps its promise (1 iff the workload survives its own loss and
      depends on a failure) exactly for workloads that depend on no failure, or are neither
      degraded nor unknown. */
  lemma ImpairedGaugeMeans(key: string, filter: Plugins, urlHost: DepGraph.UrlHost, h: seq<Cycle>, c: Cycle,
                           failures: seq<Cycle>, r: Ref, d: string)
    requires c.Completed? && Genuine(key, filter, urlHost, c) && AllAborted(failures)
    requires LabelsTellApart(c.snapshot) && Analysed(c.snapshot, r) && d in Domain.DomainsOf(c.snapshot.nodes, key)
    ensures var s, m := c.snapshot, Shown(h + [c] + failures).impaired;
      && (r.Key(), d) in m
      && ((m[(r.Key(), d)] == 1 <==>
             SurviveFacts.IsOutcome(s, key, r, d, Survives) && Chained(s, key, urlHost, d, r))
          <==> || !Chained(s, key, urlHost, d, r)
               || !(SurviveFacts.IsOutcome(s, key, r, d, Degraded) || SurviveFacts.IsOutcome(s, key, r, d, Unknown)))
  {
    ImpairedAlone(key, filter, urlHost, h, c, failures, r, d);
  }

  // ---------------------------------------------------------------- where it does not

  const BACKEND := ServiceKey("default", "s")
  const ADDRESS := Match.Render(BACKEND, Match.Short("1"))
  const CALLER :=
    Pod("default", "x", "x", map[], [], PodSpec("u", [], [], [Container([ADDRESS])], [], None), Running, true, false)
  const CALLING := Ref("Pod", "default", "x")

  /** A pod on a node without a domain, which names a Service nobody serves. */
  function Stranger(): (r: Snapshot) {
    Snapshot([Node("a", map["zone" := "a"]), Node("u", map[])], [CALLER], [], [], [], [], [], [],
             [Service(BACKEND, false, map["app" := "s"])], [])
  }

  lemma StrangerNames(urlHost: DepGraph.UrlHost)
    ensures DepGraph.PodNames(Stranger(), urlHost, CALLER, BACKEND)
  {
    var keys := DepGraph.ServiceKeys(Stranger().services);
    assert Stranger().services[0].key == BACKEND;
    assert BACKEND in keys;
    assert Match.IsLabel("s") && Match.IsPort("1");
    Match.RenderMatches(BACKEND, Match.Short("1"), "default", keys, urlHost);
    assert ADDRESS[|ADDRESS| - 1] == '1';
    assert DepGraph.NamedService(Stranger(), urlHost, "default", ADDRESS) == Some(BACKEND);
    assert DepGraph.Containers(CALLER) == [Container([ADDRESS])];
    assert Container([ADDRESS]) in DepGraph.Containers(CALLER) && ADDRESS in Container([ADDRESS]).env;
  }

  lemma StrangerChained(urlHost: DepGraph.UrlHost)
    ensures Chained(Stranger(), "zone", urlHost, "a", CALLING)
  {
    var s := Stranger();
    StrangerNames(urlHost);
    assert CALLER in s.pods && RefOf(IndexOf(s), CALLER) == CALLING;
    assert DepGraph.Mentions(s, IndexOf(s), urlHost, s.pods, CALLING, BACKEND);
    StrangerUnserved();
    assert SurviveFacts.ChainToFailure(s, "zone", urlHost, "a", [CALLING]);
  }

  lemma StrangerUnserved()
    ensures SurviveFacts.KindIs(Stranger(), IndexOf(Stranger()), BACKEND, DepGraph.Unresolved)
  {
    var s := Stranger();
    assert s.services[0].key == BACKEND;
    assert DepGraph.Backing(s, IndexOf(s), s.slices, BACKEND) == {};
    assert "app" in s.services[0].selector;
  }

  lemma StrangerUnknown()
    ensures Analysed(Stranger(), CALLING) && LabelsTellApart(Stranger())
    ensures "a" in Domain.DomainsOf(Stranger().nodes, "zone")
    ensures SurviveFacts.IsOutcome(Stranger(), "zone", CALLING, "a", Unknown)
  {
    StrangerMembers();
    StrangerHome();
    SurviveFacts.ClosedForm(Stranger(), "zone", [CALLER], Replicas(IndexOf(Stranger()), CALLING, 1), "a");
    assert CALLER in [CALLER] && !SurviveFacts.Gone(Stranger(), "zone", "a", CALLER);
  }

  lemma StrangerMembers()
    ensures Members(IndexOf(Stranger()), Stranger().pods, CALLING) == [CALLER]
  {
    assert [CALLER][..0] == [];
  }

  lemma StrangerHome()
    ensures "a" in Domain.DomainsOf(Stranger().nodes, "zone") && DomainOfPod(Stranger(), "zone", CALLER) == ""
  {
    var nodes := Stranger().nodes;
    assert Domain.Of(nodes[0], "zone") == Some("a");
    Domain.DomainsMembers(nodes, "zone", "a");
    Domain.DomainOfNameHit(nodes, "zone", 1);
    assert nodes[1].name == "u";
  }

  lemma StrangerSuffers(urlHost: DepGraph.UrlHost)
    ensures SurviveFacts.Suffers(Stranger(), "zone", urlHost, "a", CALLING)
  {
    StrangerUnknown();
    StrangerChained(urlHost);
  }

  /** Whoever reports on that cluster serves the unknown workload as impaired. */
  lemma UnknownServedImpaired(filter: Plugins, urlHost: DepGraph.UrlHost, h: seq<Cycle>, c: Cycle, failures: seq<Cycle>)
    requires c.Completed? && c.snapshot == Stranger() && Genuine("zone", filter, urlHost, c) && AllAborted(failures)
    ensures SurviveFacts.IsOutcome(Stranger(), "zone", CALLING, "a", Unknown)
    ensures var m := Shown(h + [c] + failures).impaired; (CALLING.Key(), "a") in m && m[(CALLING.Key(), "a")] == 1
  {
    StrangerUnknown();
    StrangerSuffers(urlHost);
    ImpairedAlone("zone", filter, urlHost, h, c, failures, CALLING, "a");
  }
}
