/** internal/exporter: the findings served as metrics, cycle after cycle. */
module Exporter {
  import opened Basics
  import opened Cluster
  import opened Sched
  import opened Survive
  import SchedFacts
  import Propagate
  import PdbCheck
  import DrainCheck
  import DepGraph
  import Workload
  import Domain

  type PerDomain = map<string, int>
  type PerPair = map<(string, string), int>

  /** The findings gauges: what a scrape reads besides the health of the cycle itself. */
  datatype Findings = Findings(
    lost: PerDomain,
    degraded: PerDomain,
    survives: PerPair,
    impaired: PerPair,
    unsatisfiable: PerDomain,
    deadlock: PerPair,
    checkEnabled: int,
    unlabelled: int)

  /** How one cycle ended. */
  datatype Cycle =
    | Aborted
    | Completed(snapshot: Snapshot, report: Report, gate: bool, deadlocks: seq<DrainCheck.Finding>)

  // ---------------------------------------------------------------- what one report sets

  function SurvivesValue(v: Verdict): (r: int) { if v.outcome == Survives then 1 else 0 }

  predicate Named(imps: seq<Propagate.Impairment>, k: string) {
    exists i | 0 <= i < |imps| :: imps[i].workload.Key() == k
  }

  function ImpairedValue(imps: seq<Propagate.Impairment>, v: Verdict): (r: int) {
    if Named(imps, v.workload.Key()) then 1 else 0
  }

  function ByOutcome(): (f: Verdict -> int) { (v: Verdict) => SurvivesValue(v) }

  function ByImpairment(imps: seq<Propagate.Impairment>): (f: Verdict -> int) { (v: Verdict) => ImpairedValue(imps, v) }

  /** One series per verdict, the last verdict with a label value winning. */
  function SetAll(m: PerPair, d: string, vs: seq<Verdict>, value: Verdict -> int): (r: PerPair) {
    if vs == [] then m
    else SetAll(m, d, vs[..|vs| - 1], value)[(vs[|vs| - 1].workload.Key(), d) := value(vs[|vs| - 1])]
  }

  /** The four per-domain gauges, domain by domain. */
  datatype Served = Served(lost: PerDomain, degraded: PerDomain, survives: PerPair, impaired: PerPair)

  function ServedBy(ds: seq<DomainResult>): (r: Served) {
    if ds == [] then Served(map[], map[], map[], map[])
    else
      var m, d := ServedBy(ds[..|ds| - 1]), ds[|ds| - 1];
      Served(m.lost[d.domain := d.lost], m.degraded[d.domain := d.degraded],
             SetAll(m.survives, d.domain, d.verdicts, ByOutcome()),
             SetAll(m.impaired, d.domain, d.verdicts, ByImpairment(d.impairments)))
  }

  function Flags(fs: seq<PdbCheck.Finding>): (r: PerDomain) {
    if fs == [] then map[]
    else
      var m, f := Flags(fs[..|fs| - 1]), fs[|fs| - 1];
      if f.block == PdbCheck.Unblocked then m else m[f.namespace + "/" + f.budget := 1]
  }

  function Hangs(fs: seq<DrainCheck.Finding>): (r: PerPair) {
    if fs == [] then map[]
    else Hangs(fs[..|fs| - 1])[(fs[|fs| - 1].namespace + "/" + fs[|fs| - 1].pdb, fs[|fs| - 1].domain) := 1]
  }

  function FindingsFrom(report: Report, gate: bool, deadlocks: seq<DrainCheck.Finding>): (r: Findings) {
    var m := ServedBy(report.domains);
    Findings(m.lost, m.degraded, m.survives, m.impaired, Flags(report.findings), Hangs(deadlocks),
             if gate then 1 else 0, |report.unlabelled|)
  }

  const NOTHING := Findings(map[], map[], map[], map[], map[], map[], 0, 0)

  // ---------------------------------------------------------------- what a history leaves

  /** The last good reading, if any. */
  function LastGood(h: seq<Cycle>): (r: Option<Cycle>) {
    if h == [] then None
    else if h[|h| - 1].Completed? then Some(h[|h| - 1])
    else LastGood(h[..|h| - 1])
  }

  function Shown(h: seq<Cycle>): (r: Findings) {
    match LastGood(h)
    case Some(Completed(_, report, gate, deadlocks)) => FindingsFrom(report, gate, deadlocks)
    case _ => NOTHING
  }

  function IsAborted(): (f: Cycle -> bool) { (c: Cycle) => c.Aborted? }

  predicate Healthy(h: seq<Cycle>) { h != [] && h[|h| - 1].Completed? }

  /** A completed cycle's data is the engine's report on its snapshot and, with the gate open,
      the drain check's findings on it. */
  ghost predicate Genuine(key: string, filter: Plugins, urlHost: DepGraph.UrlHost, c: Cycle) {
    c.Completed? ==>
      && (exists g, refs :: IsReport(c.snapshot, Workload.IndexOf(c.snapshot), key, urlHost, g, refs, c.report))
      && (if c.gate then exists order :: DetectedOver(key, filter, c, order) else c.deadlocks == [])
  }

  ghost predicate AllGenuine(key: string, filter: Plugins, urlHost: DepGraph.UrlHost, h: seq<Cycle>) {
    forall i :: 0 <= i < |h| ==> Genuine(key, filter, urlHost, h[i])
  }

  ghost predicate DetectedOver(key: string, filter: Plugins, c: Cycle, order: seq<string>)
    requires c.Completed?
  {
    Lists(order, Domain.DomainsOf(c.snapshot.nodes, key)) &&
      DrainCheck.Detected(filter, c.snapshot, key, order, c.deadlocks)
  }

  class Exporter {
    const key: string
    const filter: Plugins
    const urlHost: DepGraph.UrlHost

    var lost: PerDomain
    var degraded: PerDomain
    var survives: PerPair
    var impaired: PerPair
    var unsatisfiable: PerDomain
    var deadlock: PerPair
    var checkEnabled: int
    var unlabelled: int
    var success: int
    var errors: nat
    ghost var history: seq<Cycle>

    function Value(): (r: Findings)
      reads this
    {
      Findings(lost, degraded, survives, impaired, unsatisfiable, deadlock, checkEnabled, unlabelled)
    }

    /** The run invariant: the findings are those of the last good cycle, the success gauge tells
        whether that is the latest one, and the counter has every failure. */
    ghost predicate Valid()
      reads this
    {
      && Value() == Shown(history)
      && success == (if Healthy(history) then 1 else 0)
      && errors == |Filter(history, IsAborted())|
      && AllGenuine(key, filter, urlHost, history)
    }

    constructor (key: string, filter: Plugins, urlHost: DepGraph.UrlHost)
      ensures Valid() && history == []
      ensures this.key == key && this.filter == filter && this.urlHost == urlHost
    {
      this.key, this.filter, this.urlHost := key, filter, urlHost;
      lost, degraded, survives, impaired := map[], map[], map[], map[];
      unsatisfiable, deadlock := map[], map[];
      checkEnabled, unlabelled, success, errors := 0, 0, 0, 0;
      history := [];
    }

    method RecordFailure()
      requires Valid()
      modifies this`success, this`errors, this`history
      ensures Valid() && history == old(history) + [Aborted]
      ensures Value() == old(Value()) && success == 0 && errors == old(errors) + 1
    {
      success := 0;
      errors := errors + 1;
      CycleAdded(history, Aborted);
      history := history + [Aborted];
    }

    /** Both gauges of one domain's verdicts. */
    method RecordVerdicts(d: DomainResult)
      modifies this`survives, this`impaired
      ensures survives == SetAll(old(survives), d.domain, d.verdicts, ByOutcome())
      ensures impaired == SetAll(old(impaired), d.domain, d.verdicts, ByImpairment(d.impairments))
    {
      for j := 0 to |d.verdicts|
        invariant survives == SetAll(old(survives), d.domain, d.verdicts[..j], ByOutcome())
        invariant impaired == old(impaired)
      {
        assert d.verdicts[..j + 1][..j] == d.verdicts[..j];
        var v := d.verdicts[j];
        var value := 0;
        if v.outcome == Survives { value := 1; }
        survives := survives[(v.workload.Key(), d.domain) := value];
      }
      assert d.verdicts[..|d.verdicts|] == d.verdicts;
      var named := NamesOf(d.impairments);
      for j := 0 to |d.verdicts|
        invariant survives == SetAll(old(survives), d.domain, d.verdicts, ByOutcome())
        invariant impaired == SetAll(old(impaired), d.domain, d.verdicts[..j], ByImpairment(d.impairments))
      {
        assert d.verdicts[..j + 1][..j] == d.verdicts[..j];
        var v := d.verdicts[j];
        impaired := impaired[(v.workload.Key(), d.domain) := if v.workload.Key() in named then 1 else 0];
      }
    }

    method RecordDomains(ds: seq<DomainResult>)
      modifies this`lost, this`degraded, this`survives, this`impaired
      ensures Served(lost, degraded, survives, impaired) == ServedBy(ds)
    {
      lost, degraded, survives, impaired := map[], map[], map[], map[];
      for i := 0 to |ds|
        invariant Served(lost, degraded, survives, impaired) == ServedBy(ds[..i])
      {
        assert ds[..i + 1][..i] == ds[..i];
        lost := lost[ds[i].domain := ds[i].lost];
        degraded := degraded[ds[i].domain := ds[i].degraded];
        RecordVerdicts(ds[i]);
      }
      assert ds[..|ds|] == ds;
    }

    method RecordBudgets(fs: seq<PdbCheck.Finding>)
      modifies this`unsatisfiable
      ensures unsatisfiable == Flags(fs)
    {
      unsatisfiable := map[];
      for i := 0 to |fs|
        invariant unsatisfiable == Flags(fs[..i])
      {
        assert fs[..i + 1][..i] == fs[..i];
        if fs[i].block == PdbCheck.Unblocked { continue; }
        unsatisfiable := unsatisfiable[fs[i].namespace + "/" + fs[i].budget := 1];
      }
      assert fs[..|fs|] == fs;
    }

    method RecordDeadlocks(fs: seq<DrainCheck.Finding>)
      modifies this`deadlock
      ensures deadlock == Hangs(fs)
    {
      deadlock := map[];
      for i := 0 to |fs|
        invariant deadlock == Hangs(fs[..i])
      {
        assert fs[..i + 1][..i] == fs[..i];
        deadlock := deadlock[(fs[i].namespace + "/" + fs[i].pdb, fs[i].domain) := 1];
      }
      assert fs[..|fs|] == fs;
    }

    /** Reset, then set: nothing of an earlier cycle is left. */
    method Record(report: Report, gate: bool, deadlocks: seq<DrainCheck.Finding>)
      modifies this`lost, this`degraded, this`survives, this`impaired
      modifies this`unsatisfiable, this`deadlock, this`checkEnabled, this`unlabelled
      ensures Value() == FindingsFrom(report, gate, deadlocks)
      ensures Served(lost, degraded, survives, impaired) == ServedBy(report.domains)
      ensures unsatisfiable == Flags(report.findings) && deadlock == Hangs(deadlocks)
      ensures checkEnabled == (if gate then 1 else 0) && unlabelled == |report.unlabelled|
    {
      RecordDomains(report.domains);
      RecordBudgets(report.findings);
      RecordDeadlocks(deadlocks);
      checkEnabled := if gate then 1 else 0;
      unlabelled := |report.unlabelled|;
    }

    /** One cycle. `fetched` is what the API server answered and `gate` whether the scheduler
        matches the cluster's version. */
    method RunOnce(fetched: Result<Snapshot>, gate: bool) returns (ok: bool)
      requires Valid()
      requires fetched.Ok? ==> ProperNodes(fetched.value.nodes)
      modifies this
      ensures Valid() && |history| == |old(history)| + 1 && history[..|old(history)|] == old(history)
      ensures ok <==> history[|old(history)|].Completed?
      ensures success == (if ok then 1 else 0) && errors == old(errors) + if ok then 0 else 1
      ensures !ok ==> Value() == old(Value())
      ensures ok ==>
        fetched.Ok? && history[|old(history)|].snapshot == fetched.value && history[|old(history)|].gate == gate
      ensures fetched.Ok? && !gate ==> ok
      ensures ok && gate ==> SchedFacts.Seedable(fetched.value.pods)
      ensures !ok && fetched.Ok? && SchedFacts.Seedable(fetched.value.pods) ==>
        DrainCheck.Unanswerable(filter, fetched.value, key)
    {
      if fetched.Err? {
        RecordFailure();
        return false;
      }
      var snap := fetched.value;
      var report, g, refs := Survive.Analyze(snap, key, urlHost);
      var deadlocks: seq<DrainCheck.Finding> := [];
      ghost var order: seq<string> := [];
      if gate {
        var found, domains := DetectDeadlocks(snap);
        if found.Err? {
          RecordFailure();
          return false;
        }
        deadlocks, order := found.value, domains;
      }
      Complete(snap, report, gate, deadlocks, g, refs, order);
      return true;
    }

    method DetectDeadlocks(snap: Snapshot) returns (r: Result<seq<DrainCheck.Finding>>, ghost order: seq<string>)
      requires ProperNodes(snap.nodes)
      ensures r.Ok? ==> SchedFacts.Seedable(snap.pods)
      ensures r.Ok? ==> Lists(order, Domain.DomainsOf(snap.nodes, key))
      ensures r.Ok? ==> DrainCheck.Detected(filter, snap, key, order, r.value)
      ensures r.Err? && SchedFacts.Seedable(snap.pods) ==> DrainCheck.Unanswerable(filter, snap, key)
    {
      var sc := Scheduler.New(snap, filter);
      if sc.Err? { return Err, []; }
      r, order := DrainCheck.Detect(sc.value, snap, key);
    }

    method Complete(snap: Snapshot, report: Report, gate: bool, deadlocks: seq<DrainCheck.Finding>,
                    ghost g: DepGraph.Graph, ghost refs: seq<Ref>, ghost order: seq<string>)
      requires Valid()
      requires IsReport(snap, Workload.IndexOf(snap), key, urlHost, g, refs, report)
      requires gate ==> DetectedOver(key, filter, Completed(snap, report, gate, deadlocks), order)
      requires !gate ==> deadlocks == []
      modifies this
      ensures Valid() && history == old(history) + [Completed(snap, report, gate, deadlocks)]
      ensures success == 1 && errors == old(errors)
    {
      ghost var c := Completed(snap, report, gate, deadlocks);
      GenuineCycle(key, filter, urlHost, c, g, refs, order);
      Record(report, gate, deadlocks);
      Close(c);
    }

    /** The cycle whose findings are in place is the latest, and healthy. */
    method Close(ghost c: Cycle)
      requires c.Completed? && Genuine(key, filter, urlHost, c) && AllGenuine(key, filter, urlHost, history)
      requires Value() == FindingsFrom(c.report, c.gate, c.deadlocks) && errors == |Filter(history, IsAborted())|
      modifies this`success, this`history
      ensures Valid() && history == old(history) + [c]
    {
      success := 1;
      CycleAdded(history, c);
      history := history + [c];
    }
  }

  lemma GenuineCycle(key: string, filter: Plugins, urlHost: DepGraph.UrlHost, c: Cycle, g: DepGraph.Graph,
                     refs: seq<Ref>, order: seq<string>)
    requires c.Completed?
    requires IsReport(c.snapshot, Workload.IndexOf(c.snapshot), key, urlHost, g, refs, c.report)
    requires if c.gate then DetectedOver(key, filter, c, order) else c.deadlocks == []
    ensures Genuine(key, filter, urlHost, c)
  {}

  /** What one more cycle changes. */
  lemma CycleAdded(h: seq<Cycle>, c: Cycle)
    ensures LastGood(h + [c]) == if c.Completed? then Some(c) else LastGood(h)
    ensures |Filter(h + [c], IsAborted())| == |Filter(h, IsAborted())| + (if c.Aborted? then 1 else 0)
    ensures Shown(h + [c]) == if c.Completed? then FindingsFrom(c.report, c.gate, c.deadlocks) else Shown(h)
    ensures Healthy(h + [c]) <==> c.Completed?
  {
    assert (h + [c])[..|h|] == h;
  }

  method NamesOf(imps: seq<Propagate.Impairment>) returns (names: set<string>)
    ensures forall k :: k in names <==> Named(imps, k)
  {
    names := {};
    for i := 0 to |imps|
      invariant forall k :: k in names <==> exists j :: 0 <= j < i && imps[j].workload.Key() == k
    {
      names := names + {imps[i].workload.Key()};
    }
  }
}
