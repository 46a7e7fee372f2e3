/** What a scrape means, after any sequence of cycles. */
module ExporterFacts {
  import opened Basics
  import opened Cluster
  import opened Sched
  import opened Survive
  import opened Exporter
  import SurviveFacts
  import Propagate
  import PdbCheck
  import DrainCheck
  import DepGraph
  import Workload
  import Domain

  // ---------------------------------------------------------------- failed cycles

  ghost predicate AllAborted(h: seq<Cycle>) { forall i :: 0 <= i < |h| ==> h[i].Aborted? }

  /** Failures change no finding; each is counted; the cycle is reported unhealthy. */
  lemma {:induction false} FailuresKeepReadings(h: seq<Cycle>, failures: seq<Cycle>)
    requires AllAborted(failures)
    ensures Shown(h + failures) == Shown(h)
    ensures |Filter(h + failures, IsAborted())| == |Filter(h, IsAborted())| + |failures|
    ensures failures != [] ==> !Healthy(h + failures)
  {
    if failures == [] {
      assert h + failures == h;
    } else {
      var init := failures[..|failures| - 1];
      assert (h + failures)[..|h + failures| - 1] == h + init;
      FailuresKeepReadings(h, init);
    }
  }

  /** So what is shown is the last completed cycle's, however many failed since. */
  lemma LastGoodShown(h: seq<Cycle>, c: Cycle, failures: seq<Cycle>)
    requires c.Completed? && AllAborted(failures)
    ensures Shown(h + [c] + failures) == FindingsFrom(c.report, c.gate, c.deadlocks)
    ensures |Filter(h + [c] + failures, IsAborted())| == |Filter(h, IsAborted())| + |failures|
    ensures Healthy(h + [c] + failures) <==> failures == []
  {
    FailuresKeepReadings(h + [c], failures);
    assert (h + [c])[..|h|] == h;
    if failures == [] { assert h + [c] + failures == h + [c]; }
  }

  /** Nothing completed, nothing shown. */
  lemma {:induction false} NothingYet(h: seq<Cycle>)
    ensures LastGood(h).None? <==> AllAborted(h)
    ensures AllAborted(h) ==> Shown(h) == NOTHING && |Filter(h, IsAborted())| == |h|
    ensures LastGood(h).Some? ==> LastGood(h).value in h && LastGood(h).value.Completed?
  {
    if h != [] {
      var init := h[..|h| - 1];
      assert h == init + [h[|h| - 1]];
      NothingYet(init);
    }
  }

  // ---------------------------------------------------------------- one domain's series

  ghost predicate NamesAgree(vs: seq<Verdict>, value: Verdict -> int) {
    forall i, j :: 0 <= i < j < |vs| && vs[i].workload.Key() == vs[j].workload.Key() ==> value(vs[i]) == value(vs[j])
  }

  lemma {:induction false} SetKeys(m: PerPair, d: string, vs: seq<Verdict>, value: Verdict -> int, k: string, e: string)
    ensures (k, e) in SetAll(m, d, vs, value)
       <==> (k, e) in m || (e == d && exists j :: 0 <= j < |vs| && vs[j].workload.Key() == k)
    ensures (k, e) in m && e != d ==> SetAll(m, d, vs, value)[(k, e)] == m[(k, e)]
  {
    if vs != [] {
      var init := vs[..|vs| - 1];
      SetKeys(m, d, init, value, k, e);
      assert forall j :: 0 <= j < |init| ==> init[j] == vs[j];
    }
  }

  lemma {:induction false} SetValue(m: PerPair, d: string, vs: seq<Verdict>, value: Verdict -> int, j: nat)
    requires j < |vs| && NamesAgree(vs, value)
    ensures (vs[j].workload.Key(), d) in SetAll(m, d, vs, value)
    ensures SetAll(m, d, vs, value)[(vs[j].workload.Key(), d)] == value(vs[j])
  {
    var init := vs[..|vs| - 1];
    if j < |init| && vs[|vs| - 1].workload.Key() != vs[j].workload.Key() {
      SetValue(m, d, init, value, j);
    }
  }

  /** Every verdict reads back its own value exactly when workloads that share a label value
      agree; namespace and name being the label, that is a question about kinds. */
  lemma SeriesFaithful(m: PerPair, d: string, vs: seq<Verdict>, value: Verdict -> int)
    ensures NamesAgree(vs, value) <==> forall j :: 0 <= j < |vs| ==> ReadsBack(SetAll(m, d, vs, value), d, vs[j], value)
  {
    if NamesAgree(vs, value) {
      forall j | 0 <= j < |vs| ensures ReadsBack(SetAll(m, d, vs, value), d, vs[j], value) {
        SetValue(m, d, vs, value, j);
      }
    }
  }

  ghost predicate ReadsBack(m: PerPair, d: string, v: Verdict, value: Verdict -> int) {
    (v.workload.Key(), d) in m && m[(v.workload.Key(), d)] == value(v)
  }

  /** Two workloads of one name and different kinds share a series, and the later one decides:
      here a Deployment that survives is served as one that does not. */
  lemma KindsCollide(d: string, a: Verdict, b: Verdict)
    requires a.workload == Ref("Deployment", "shop", "web") && a.outcome == Survives
    requires b.workload == Ref("StatefulSet", "shop", "web") && b.outcome == Lost
    ensures !ReadsBack(SetAll(map[], d, [a, b], ByOutcome()), d, a, ByOutcome())
  {
    assert [a, b][..1] == [a];
  }

  /** The impairment gauge has no such trouble: its value depends on the name alone. */
  lemma ImpairedAgree(imps: seq<Propagate.Impairment>, vs: seq<Verdict>)
    ensures NamesAgree(vs, ByImpairment(imps))
  {}

  // ---------------------------------------------------------------- all domains

  ghost predicate DistinctDomains(ds: seq<DomainResult>) {
    forall i, j :: 0 <= i < j < |ds| ==> ds[i].domain != ds[j].domain
  }

  /** The series of a domain are set by that domain's result and by nothing else. */
  lemma {:induction false} ServedAt(ds: seq<DomainResult>, i: nat, k: string)
    requires i < |ds| && DistinctDomains(ds)
    ensures var d, m := ds[i], ServedBy(ds);
      && d.domain in m.lost && m.lost[d.domain] == d.lost
      && d.domain in m.degraded && m.degraded[d.domain] == d.degraded
      && ((k, d.domain) in m.survives <==> exists j :: 0 <= j < |d.verdicts| && d.verdicts[j].workload.Key() == k)
      && ((k, d.domain) in m.impaired <==> exists j :: 0 <= j < |d.verdicts| && d.verdicts[j].workload.Key() == k)
    ensures forall j :: 0 <= j < |ds[i].verdicts| ==> Reads(ds, i, j)
  {
    var init, last := ds[..|ds| - 1], ds[|ds| - 1];
    var m := ServedBy(init);
    SetKeys(m.survives, last.domain, last.verdicts, ByOutcome(), k, ds[i].domain);
    SetKeys(m.impaired, last.domain, last.verdicts, ByImpairment(last.impairments), k, ds[i].domain);
    if i == |init| {
      NoSeries(init, ds[i].domain, k);
      forall j | 0 <= j < |last.verdicts| ensures Reads(ds, i, j) {
        LastReads(ds, j);
      }
    } else {
      ServedAt(init, i, k);
      forall j | 0 <= j < |ds[i].verdicts| ensures Reads(ds, i, j) {
        assert Reads(init, i, j);
        EarlierReads(ds, i, j);
      }
    }
  }

  /** Verdict `j` of domain `i` reads back: its impairment always, its outcome when the verdicts
      that share its label value agree. */
  ghost predicate Reads(ds: seq<DomainResult>, i: nat, j: nat)
    requires i < |ds| && j < |ds[i].verdicts|
  {
    var d, v, m := ds[i], ds[i].verdicts[j], ServedBy(ds);
    && (NamesAgree(d.verdicts, ByOutcome()) ==> ReadsBack(m.survives, d.domain, v, ByOutcome()))
    && ReadsBack(m.impaired, d.domain, v, ByImpairment(d.impairments))
  }

  lemma LastReads(ds: seq<DomainResult>, j: nat)
    requires ds != [] && j < |ds[|ds| - 1].verdicts|
    ensures Reads(ds, |ds| - 1, j)
  {
    var m, d := ServedBy(ds[..|ds| - 1]), ds[|ds| - 1];
    if NamesAgree(d.verdicts, ByOutcome()) { SetValue(m.survives, d.domain, d.verdicts, ByOutcome(), j); }
    ImpairedAgree(d.impairments, d.verdicts);
    SetValue(m.impaired, d.domain, d.verdicts, ByImpairment(d.impairments), j);
  }

  lemma EarlierReads(ds: seq<DomainResult>, i: nat, j: nat)
    requires i < |ds| - 1 && j < |ds[i].verdicts| && ds[i].domain != ds[|ds| - 1].domain
    requires Reads(ds[..|ds| - 1], i, j)
    ensures Reads(ds, i, j)
  {
    var m, d := ServedBy(ds[..|ds| - 1]), ds[|ds| - 1];
    var k := ds[i].verdicts[j].workload.Key();
    SetKeys(m.survives, d.domain, d.verdicts, ByOutcome(), k, ds[i].domain);
    SetKeys(m.impaired, d.domain, d.verdicts, ByImpairment(d.impairments), k, ds[i].domain);
  }

  /** A domain that is not in the report has no series. */
  lemma {:induction false} NoSeries(ds: seq<DomainResult>, e: string, k: string)
    requires forall i :: 0 <= i < |ds| ==> ds[i].domain != e
    ensures var m := ServedBy(ds); e !in m.lost && e !in m.degraded && (k, e) !in m.survives && (k, e) !in m.impaired
  {
    if ds != [] {
      var init, last := ds[..|ds| - 1], ds[|ds| - 1];
      var m := ServedBy(init);
      NoSeries(init, e, k);
      SetKeys(m.survives, last.domain, last.verdicts, ByOutcome(), k, e);
      SetKeys(m.impaired, last.domain, last.verdicts, ByImpairment(last.impairments), k, e);
    }
  }

  // ---------------------------------------------------------------- the other gauges

  lemma {:induction false} FlagsExact(fs: seq<PdbCheck.Finding>, k: string)
    ensures k in Flags(fs) <==>
      exists i :: 0 <= i < |fs| && fs[i].block != PdbCheck.Unblocked && k == fs[i].namespace + "/" + fs[i].budget
    ensures k in Flags(fs) ==> Flags(fs)[k] == 1
  {
    if fs != [] {
      var init := fs[..|fs| - 1];
      FlagsExact(init, k);
      assert forall i :: 0 <= i < |init| ==> init[i] == fs[i];
    }
  }

  lemma {:induction false} HangsExact(fs: seq<DrainCheck.Finding>, k: string, d: string)
    ensures (k, d) in Hangs(fs) <==>
      exists i :: 0 <= i < |fs| && fs[i].domain == d && k == fs[i].namespace + "/" + fs[i].pdb
    ensures (k, d) in Hangs(fs) ==> Hangs(fs)[(k, d)] == 1
  {
    if fs != [] {
      var init := fs[..|fs| - 1];
      HangsExact(init, k, d);
      assert forall i :: 0 <= i < |init| ==> init[i] == fs[i];
    }
  }

  // ---------------------------------------------------------------- from the cluster to the scrape

  /** No two analysed workloads differ in kind alone, and namespaces contain no slash. */
  ghost predicate NamesTellApart(s: Snapshot) {
    forall q, r :: Analysed(s, q) && Analysed(s, r) && q.namespace == r.namespace && q.name == r.name ==> q == r
  }

  ghost predicate Analysed(s: Snapshot, r: Ref) { Members(Workload.IndexOf(s), s.pods, r) != [] }

  ghost predicate PlainNamespaces(s: Snapshot) { forall r :: Analysed(s, r) ==> '/' !in r.namespace }

  lemma VerdictsTellApart(s: Snapshot, key: string, urlHost: DepGraph.UrlHost, g: DepGraph.Graph, refs: seq<Ref>,
                          report: Report, i: nat)
    requires IsReport(s, Workload.IndexOf(s), key, urlHost, g, refs, report) && i < |report.domains|
    requires NamesTellApart(s) && PlainNamespaces(s)
    ensures NamesAgree(report.domains[i].verdicts, ByOutcome())
  {
    var vs := report.domains[i].verdicts;
    forall j, k | 0 <= j < k < |vs| && vs[j].workload.Key() == vs[k].workload.Key()
      ensures SurvivesValue(vs[j]) == SurvivesValue(vs[k])
    {
      var q, r := vs[j].workload, vs[k].workload;
      SurviveFacts.VerdictOwner(s, key, urlHost, g, refs, report, i, j);
      SurviveFacts.VerdictOwner(s, key, urlHost, g, refs, report, i, k);
      assert Analysed(s, q) && Analysed(s, r);
      SlashSplits(q.namespace, q.name, r.namespace, r.name);
      assert q == r;
      var at := SurviveFacts.ReportComplete(s, key, urlHost, g, refs, report, i, q);
    }
  }

  lemma ReportDomains(s: Snapshot, key: string, report: Report)
    requires Lists(DomainNames(report), Domain.DomainsOf(s.nodes, key))
    ensures DistinctDomains(report.domains)
  {
    forall a, b | 0 <= a < b < |report.domains| ensures report.domains[a].domain != report.domains[b].domain {
      assert DomainNames(report)[a] != DomainNames(report)[b];
    }
  }

  /** A scrape of the survives gauge, traced to the cluster it came from: 1 exactly when every
      replica's domain is known, one of them outlives `d`, and the budget asks for no more than
      run outside. */
  lemma SurvivesGauge(key: string, filter: Plugins, urlHost: DepGraph.UrlHost, h: seq<Cycle>, c: Cycle,
                      failures: seq<Cycle>, r: Ref, d: string)
    requires c.Completed? && Genuine(key, filter, urlHost, c) && AllAborted(failures)
    requires NamesTellApart(c.snapshot) && PlainNamespaces(c.snapshot)
    requires Analysed(c.snapshot, r) && d in Domain.DomainsOf(c.snapshot.nodes, key)
    ensures var m := Shown(h + [c] + failures).survives;
      (r.Key(), d) in m && (m[(r.Key(), d)] == 1 <==> Cleared(c.snapshot, key, r, d)) && 0 <= m[(r.Key(), d)] <= 1
  {
    var s, report := c.snapshot, c.report;
    var g, refs :| IsReport(s, Workload.IndexOf(s), key, urlHost, g, refs, report);
    LastGoodShown(h, c, failures);
    var i := SurviveFacts.DomainRow(s, key, report, d);
    var j := SurviveFacts.ReportComplete(s, key, urlHost, g, refs, report, i, r);
    ReportDomains(s, key, report);
    VerdictsTellApart(s, key, urlHost, g, refs, report, i);
    SurvivesReading(report, i, j);
    ClearedIff(s, key, r, d);
  }

  lemma SurvivesReading(report: Report, i: nat, j: nat)
    requires i < |report.domains| && j < |report.domains[i].verdicts| && DistinctDomains(report.domains)
    requires NamesAgree(report.domains[i].verdicts, ByOutcome())
    ensures ReadsBack(ServedBy(report.domains).survives, report.domains[i].domain,
                      report.domains[i].verdicts[j], ByOutcome())
  {
    ServedAt(report.domains, i, "");
    assert Reads(report.domains, i, j);
  }

  lemma ClearedIff(s: Snapshot, key: string, r: Ref, d: string)
    requires Analysed(s, r) && d in Domain.DomainsOf(s.nodes, key)
    ensures SurviveFacts.IsOutcome(s, key, r, d, Survives) <==> Cleared(s, key, r, d)
  {
    var pods := Members(Workload.IndexOf(s), s.pods, r);
    Domain.DomainNonEmpty(s.nodes, key, d);
    SurviveFacts.ClosedForm(s, key, pods, Replicas(Workload.IndexOf(s), r, |pods|), d);
  }

  /** The closed form of a clean bill. */
  ghost predicate Cleared(s: Snapshot, key: string, r: Ref, d: string) {
    var pods := Members(Workload.IndexOf(s), s.pods, r);
    pods != [] &&
      var demand := PdbCheck.DesiredAvailable(s.budgets, pods[0], Replicas(Workload.IndexOf(s), r, |pods|));
      && !SurviveFacts.AllGone(s, key, d, pods)
      && !SurviveFacts.Unplaced(s, key, pods)
      && !demand.Unreadable?
      && (demand.Keep? ==> SurviveFacts.Outside(s, key, d, pods) >= demand.n)
  }

  ghost predicate VerdictFor(vs: seq<Verdict>, r: Ref, o: Outcome) {
    exists j :: 0 <= j < |vs| && vs[j].workload == r && vs[j].outcome == o
  }

  lemma {:induction false} RefsWithMembers(vs: seq<Verdict>, o: Outcome, r: Ref)
    ensures r in RefsWith(vs, o) <==> VerdictFor(vs, r, o)
  {
    if vs != [] {
      var init, last := vs[..|vs| - 1], vs[|vs| - 1];
      RefsWithMembers(init, o, r);
      if VerdictFor(init, r, o) {
        var j :| 0 <= j < |init| && init[j].workload == r && init[j].outcome == o;
        assert vs[j] == init[j];
      }
      if j :| 0 <= j < |vs| && vs[j].workload == r && vs[j].outcome == o {
        if j < |init| { assert init[j] == vs[j]; }
      }
      assert last == vs[|vs| - 1];
    }
  }

  lemma {:induction false} CountDistinct(vs: seq<Verdict>, o: Outcome)
    requires forall i, j :: 0 <= i < j < |vs| ==> vs[i].workload != vs[j].workload
    ensures |Filter(vs, HasOutcome(o))| == |RefsWith(vs, o)|
  {
    if vs != [] {
      var init, last := vs[..|vs| - 1], vs[|vs| - 1];
      CountDistinct(init, o);
      RefsWithMembers(init, o, last.workload);
      assert !VerdictFor(init, last.workload, o);
    }
  }

  function RefsWith(vs: seq<Verdict>, o: Outcome): (r: set<Ref>) {
    if vs == [] then {}
    else RefsWith(vs[..|vs| - 1], o) + (if vs[|vs| - 1].outcome == o then {vs[|vs| - 1].workload} else {})
  }

  /** A scrape of the lost gauge: the number of workloads whose every replica goes with `d`. */
  lemma LostGauge(key: string, filter: Plugins, urlHost: DepGraph.UrlHost, h: seq<Cycle>, c: Cycle,
                  failures: seq<Cycle>, d: string) returns (gone: set<Ref>)
    requires c.Completed? && Genuine(key, filter, urlHost, c) && AllAborted(failures)
    requires d in Domain.DomainsOf(c.snapshot.nodes, key)
    ensures d in Shown(h + [c] + failures).lost && Shown(h + [c] + failures).lost[d] == |gone|
    ensures forall r :: r in gone <==>
      Analysed(c.snapshot, r)
      && SurviveFacts.AllGone(c.snapshot, key, d, Members(Workload.IndexOf(c.snapshot), c.snapshot.pods, r))
  {
    var s, report := c.snapshot, c.report;
    var g, refs :| IsReport(s, Workload.IndexOf(s), key, urlHost, g, refs, report);
    LastGoodShown(h, c, failures);
    ReportDomains(s, key, report);
    var i := SurviveFacts.DomainRow(s, key, report, d);
    ServedAt(report.domains, i, "");
    Domain.DomainNonEmpty(s.nodes, key, d);
    var vs := report.domains[i].verdicts;
    VerdictsDiffer(s, key, urlHost, g, refs, report, i);
    CountDistinct(vs, Lost);
    gone := RefsWith(vs, Lost);
    forall r ensures r in gone <==>
      Analysed(s, r) && SurviveFacts.AllGone(s, key, d, Members(Workload.IndexOf(s), s.pods, r))
    {
      RefsWithMembers(vs, Lost, r);
      LostMember(s, key, urlHost, g, refs, report, i, r);
    }
  }

  /** No workload has two verdicts in a domain, and the totals count them. */
  lemma VerdictsDiffer(s: Snapshot, key: string, urlHost: DepGraph.UrlHost, g: DepGraph.Graph, refs: seq<Ref>,
                       report: Report, i: nat)
    requires IsReport(s, Workload.IndexOf(s), key, urlHost, g, refs, report) && i < |report.domains|
    ensures var vs := report.domains[i].verdicts;
      forall j, k :: 0 <= j < k < |vs| ==> vs[j].workload != vs[k].workload
    ensures report.domains[i].lost == |Filter(report.domains[i].verdicts, HasOutcome(Lost))|
    ensures report.domains[i].degraded == |Filter(report.domains[i].verdicts, HasOutcome(Degraded))|
  {
    var vs := report.domains[i].verdicts;
    assert IsDomainResult(s, Workload.IndexOf(s), key, g, refs, |report.domains|, report.domains[i]);
    forall j, k | 0 <= j < k < |vs| ensures vs[j].workload != vs[k].workload {
      SurviveFacts.VerdictRow(s, key, urlHost, g, refs, report, i, j);
      SurviveFacts.VerdictRow(s, key, urlHost, g, refs, report, i, k);
    }
  }

  lemma LostMember(s: Snapshot, key: string, urlHost: DepGraph.UrlHost, g: DepGraph.Graph, refs: seq<Ref>,
                   report: Report, i: nat, r: Ref)
    requires IsReport(s, Workload.IndexOf(s), key, urlHost, g, refs, report) && i < |report.domains|
    requires report.domains[i].domain != ""
    ensures SurviveFacts.HasVerdict(report.domains[i], r, Lost) <==>
      Analysed(s, r) && SurviveFacts.AllGone(s, key, report.domains[i].domain, Members(Workload.IndexOf(s), s.pods, r))
  {
    var pods := Members(Workload.IndexOf(s), s.pods, r);
    SurviveFacts.VerdictIs(s, key, urlHost, g, refs, report, i, r, Lost);
    if pods != [] {
      SurviveFacts.ClosedForm(s, key, pods, Replicas(Workload.IndexOf(s), r, |pods|), report.domains[i].domain);
    }
  }

  /** The closed form of a degraded verdict. */
  ghost predicate Short(s: Snapshot, key: string, r: Ref, d: string) {
    var pods := Members(Workload.IndexOf(s), s.pods, r);
    pods != [] &&
      var demand := PdbCheck.DesiredAvailable(s.budgets, pods[0], Replicas(Workload.IndexOf(s), r, |pods|));
      && !SurviveFacts.AllGone(s, key, d, pods)
      && !SurviveFacts.Unplaced(s, key, pods)
      && demand.Keep? && SurviveFacts.Outside(s, key, d, pods) < demand.n
  }

  /** A scrape of the degraded gauge: the number of workloads left with fewer replicas outside
      `d` than their budget asks for. */
  lemma DegradedGauge(key: string, filter: Plugins, urlHost: DepGraph.UrlHost, h: seq<Cycle>, c: Cycle,
                      failures: seq<Cycle>, d: string) returns (short: set<Ref>)
    requires c.Completed? && Genuine(key, filter, urlHost, c) && AllAborted(failures)
    requires d in Domain.DomainsOf(c.snapshot.nodes, key)
    ensures d in Shown(h + [c] + failures).degraded && Shown(h + [c] + failures).degraded[d] == |short|
    ensures forall r :: r in short <==> Short(c.snapshot, key, r, d)
  {
    var s, report := c.snapshot, c.report;
    var g, refs :| IsReport(s, Workload.IndexOf(s), key, urlHost, g, refs, report);
    LastGoodShown(h, c, failures);
    ReportDomains(s, key, report);
    var i := SurviveFacts.DomainRow(s, key, report, d);
    ServedAt(report.domains, i, "");
    Domain.DomainNonEmpty(s.nodes, key, d);
    var vs := report.domains[i].verdicts;
    VerdictsDiffer(s, key, urlHost, g, refs, report, i);
    CountDistinct(vs, Degraded);
    short := RefsWith(vs, Degraded);
    forall r ensures r in short <==> Short(s, key, r, d) {
      RefsWithMembers(vs, Degraded, r);
      ShortMember(s, key, urlHost, g, refs, report, i, r);
    }
  }

  lemma ShortMember(s: Snapshot, key: string, urlHost: DepGraph.UrlHost, g: DepGraph.Graph, refs: seq<Ref>,
                    report: Report, i: nat, r: Ref)
    requires IsReport(s, Workload.IndexOf(s), key, urlHost, g, refs, report) && i < |report.domains|
    requires report.domains[i].domain != ""
    ensures SurviveFacts.HasVerdict(report.domains[i], r, Degraded) <==> Short(s, key, r, report.domains[i].domain)
  {
    var pods := Members(Workload.IndexOf(s), s.pods, r);
    SurviveFacts.VerdictIs(s, key, urlHost, g, refs, report, i, r, Degraded);
    if pods != [] {
      SurviveFacts.ClosedForm(s, key, pods, Replicas(Workload.IndexOf(s), r, |pods|), report.domains[i].domain);
    }
  }

  /** A scrape of the impaired gauge: 1 exactly when a workload of that name, not lost itself,
      reaches through the Services its pods name one that is lost, unknown or backed by nobody. */
  lemma ImpairedGauge(key: string, filter: Plugins, urlHost: DepGraph.UrlHost, h: seq<Cycle>, c: Cycle,
                      failures: seq<Cycle>, r: Ref, d: string)
    requires c.Completed? && Genuine(key, filter, urlHost, c) && AllAborted(failures)
    requires Analysed(c.snapshot, r) && d in Domain.DomainsOf(c.snapshot.nodes, key)
    ensures var m := Shown(h + [c] + failures).impaired;
      && (r.Key(), d) in m && 0 <= m[(r.Key(), d)] <= 1
      && (m[(r.Key(), d)] == 1 <==>
        exists q: Ref :: q.Key() == r.Key() && SurviveFacts.Suffers(c.snapshot, key, urlHost, d, q))
  {
    var s, report := c.snapshot, c.report;
    var g, refs :| IsReport(s, Workload.IndexOf(s), key, urlHost, g, refs, report);
    LastGoodShown(h, c, failures);
    ReportDomains(s, key, report);
    var i := SurviveFacts.DomainRow(s, key, report, d);
    var j := SurviveFacts.ReportComplete(s, key, urlHost, g, refs, report, i, r);
    ServedAt(report.domains, i, "");
    assert Reads(report.domains, i, j);
    NamedMeans(s, key, urlHost, g, refs, report, i, r.Key());
  }

  lemma NamedMeans(s: Snapshot, key: string, urlHost: DepGraph.UrlHost, g: DepGraph.Graph, refs: seq<Ref>,
                   report: Report, i: nat, k: string)
    requires IsReport(s, Workload.IndexOf(s), key, urlHost, g, refs, report) && i < |report.domains|
    ensures Named(report.domains[i].impairments, k)
       <==> exists q: Ref :: q.Key() == k && SurviveFacts.Suffers(s, key, urlHost, report.domains[i].domain, q)
  {
    var res := report.domains[i];
    if Named(res.impairments, k) {
      var n :| 0 <= n < |res.impairments| && res.impairments[n].workload.Key() == k;
      SurviveFacts.ImpairedMeans(s, key, urlHost, g, refs, report, i, res.impairments[n].workload);
    }
    if q: Ref :| q.Key() == k && SurviveFacts.Suffers(s, key, urlHost, res.domain, q) {
      SurviveFacts.ImpairedMeans(s, key, urlHost, g, refs, report, i, q);
    }
  }

  /** A scrape of the budget gauge: a series for exactly the budgets the static check blocks. */
  lemma BudgetGauge(key: string, filter: Plugins, urlHost: DepGraph.UrlHost, h: seq<Cycle>, c: Cycle,
                    failures: seq<Cycle>, k: string)
    requires c.Completed? && Genuine(key, filter, urlHost, c) && AllAborted(failures)
    ensures var s, m := c.snapshot, Shown(h + [c] + failures).unsatisfiable;
      && (k in m <==>
        exists b :: b in s.budgets && b.Key() == k && PdbCheck.BlockOf(s.budgets, s.pods, b) != PdbCheck.Unblocked)
      && (k in m ==> m[k] == 1)
  {
    var s, fs := c.snapshot, c.report.findings;
    LastGoodShown(h, c, failures);
    FlagsExact(fs, k);
    if b :| b in s.budgets && b.Key() == k && PdbCheck.BlockOf(s.budgets, s.pods, b) != PdbCheck.Unblocked {
      var i :| 0 <= i < |s.budgets| && s.budgets[i] == b;
      assert fs[i].block != PdbCheck.Unblocked;
    }
    if k in Flags(fs) {
      var i :| 0 <= i < |fs| && fs[i].block != PdbCheck.Unblocked && k == fs[i].namespace + "/" + fs[i].budget;
      assert s.budgets[i] in s.budgets;
    }
  }

  function Homeless(key: string): (f: Node -> bool) { (n: Node) => Domain.Of(n, key).None? }

  lemma {:induction false} BucketSize(nodes: seq<Node>, key: string)
    ensures |Domain.Bucket(nodes, key, None)| == |Filter(nodes, Homeless(key))|
  {
    if nodes != [] { BucketSize(nodes[..|nodes| - 1], key); }
  }

  /** A scrape of the unlabelled gauge: how many nodes belong to no domain. */
  lemma UnlabelledGauge(key: string, filter: Plugins, urlHost: DepGraph.UrlHost, h: seq<Cycle>, c: Cycle,
                        failures: seq<Cycle>)
    requires c.Completed? && Genuine(key, filter, urlHost, c) && AllAborted(failures)
    ensures Shown(h + [c] + failures).unlabelled == |Filter(c.snapshot.nodes, Homeless(key))|
  {
    LastGoodShown(h, c, failures);
    BucketSize(c.snapshot.nodes, key);
    assert |multiset(c.report.unlabelled)| == |multiset(Domain.Bucket(c.snapshot.nodes, key, None))|;
  }

  /** A scrape of the deadlock gauge: with the gate open, the drain check's findings on the last
      good snapshot; with it shut, no series and the enabled gauge at 0. */
  lemma DeadlockGauge(key: string, filter: Plugins, urlHost: DepGraph.UrlHost, h: seq<Cycle>, c: Cycle,
                      failures: seq<Cycle>,
                      k: string, d: string)
    requires c.Completed? && Genuine(key, filter, urlHost, c) && AllAborted(failures)
    ensures var f := Shown(h + [c] + failures);
      && (f.checkEnabled == 1 <==> c.gate)
      && ((k, d) in f.deadlock <==>
        c.gate && exists x :: x in c.deadlocks && x.domain == d && k == x.namespace + "/" + x.pdb)
  {
    LastGoodShown(h, c, failures);
    HangsExact(c.deadlocks, k, d);
    if c.gate && exists x :: x in c.deadlocks && x.domain == d && k == x.namespace + "/" + x.pdb {
      var x :| x in c.deadlocks && x.domain == d && k == x.namespace + "/" + x.pdb;
      var i :| 0 <= i < |c.deadlocks| && c.deadlocks[i] == x;
    }
    assert !c.gate ==> c.deadlocks == [];
  }
}
