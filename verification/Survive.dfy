/** internal/survive: remove each failure domain in turn and report what stops serving. */
module Survive {
  import opened Basics
  import opened Cluster
  import opened Workload
  import Domain
  import Spread
  import PdbCheck
  import VolumePin
  import DepGraph
  import Propagate

  datatype Outcome = Survives | Degraded | Lost | Unknown

  datatype Verdict = Verdict(
    workload: Ref,
    outcome: Outcome,
    placement: map<string, nat>,
    spread: Spread.State,
    antiAffinity: Spread.State,
    pins: seq<VolumePin.Pin>)

  datatype DomainResult = DomainResult(
    domain: string,
    lost: nat,
    degraded: nat,
    verdicts: seq<Verdict>,
    impairments: seq<Propagate.Impairment>)

  datatype Report = Report(
    domainKey: string,
    domains: seq<DomainResult>,
    findings: seq<PdbCheck.Finding>,
    unlabelled: seq<string>)

  // ---------------------------------------------------------------- grouping

  function DomainOfPod(s: Snapshot, key: string, p: Pod): (r: string) {
    Domain.DomainOfName(s.nodes, key, p.spec.nodeName)
  }

  predicate Serves(idx: Index, p: Pod, ref: Ref) { p.Available() && RefOf(idx, p) == ref }

  /** The available pods of a workload, in snapshot order. */
  function Members(idx: Index, pods: seq<Pod>, ref: Ref): (r: seq<Pod>) {
    if pods == [] then []
    else
      var rest := Members(idx, pods[..|pods| - 1], ref);
      if Serves(idx, pods[|pods| - 1], ref) then rest + [pods[|pods| - 1]] else rest
  }

  lemma {:induction false} MembersOf(idx: Index, pods: seq<Pod>, ref: Ref)
    ensures forall p :: p in Members(idx, pods, ref) <==> p in pods && Serves(idx, p, ref)
  {
    if pods != [] {
      MembersOf(idx, pods[..|pods| - 1], ref);
      assert pods == pods[..|pods| - 1] + [pods[|pods| - 1]];
    }
  }

  function PlacementOf(s: Snapshot, key: string, pods: seq<Pod>): (r: map<string, nat>) {
    if pods == [] then map[]
    else
      var m := PlacementOf(s, key, pods[..|pods| - 1]);
      var d := DomainOfPod(s, key, pods[|pods| - 1]);
      m[d := Spread.At(m, d) + 1]
  }

  function RunsIn(s: Snapshot, key: string, d: string): (f: Pod -> bool) {
    (p: Pod) => DomainOfPod(s, key, p) == d
  }

  function RunsOutside(s: Snapshot, key: string, d: string): (f: Pod -> bool) {
    (p: Pod) => DomainOfPod(s, key, p) != d
  }

  lemma {:induction false} PlacementCounts(s: Snapshot, key: string, pods: seq<Pod>, d: string)
    ensures Spread.At(PlacementOf(s, key, pods), d) == |Filter(pods, RunsIn(s, key, d))|
  {
    if pods != [] { PlacementCounts(s, key, pods[..|pods| - 1], d); }
  }

  datatype Agg = Agg(placement: map<string, nat>, total: nat, pods: seq<Pod>)

  function AggOf(s: Snapshot, key: string, pods: seq<Pod>): (r: Agg) {
    Agg(PlacementOf(s, key, pods), |pods|, pods)
  }

  /** The groups are the workloads with an available pod, each with its pods and counts. */
  ghost predicate Grouped(s: Snapshot, idx: Index, key: string, pods: seq<Pod>, groups: map<Ref, Agg>) {
    forall r :: GroupedAt(s, key, Members(idx, pods, r), groups, r)
  }

  method GroupPods(s: Snapshot, idx: Index, key: string, byNode: map<string, string>) returns (groups: map<Ref, Agg>)
    requires Domain.NodeLookup(s.nodes, key, byNode)
    ensures Grouped(s, idx, key, s.pods, groups)
  {
    groups := map[];
    for i := 0 to |s.pods|
      invariant Grouped(s, idx, key, s.pods[..i], groups)
    {
      var pod := s.pods[i];
      var d := if pod.spec.nodeName in byNode then byNode[pod.spec.nodeName] else "";
      GroupStep(s, idx, key, i, groups);
      if !pod.Available() { continue; }
      groups := Enlist(groups, RefOf(idx, pod), pod, d);
    }
    assert s.pods[..|s.pods|] == s.pods;
  }

  /** The pod joins its workload's group, created on first use. */
  function Enlist(groups: map<Ref, Agg>, ref: Ref, pod: Pod, d: string): (r: map<Ref, Agg>) {
    var a := if ref in groups then groups[ref] else Agg(map[], 0, []);
    groups[ref := Agg(a.placement[d := Spread.At(a.placement, d) + 1], a.total + 1, a.pods + [pod])]
  }

  lemma MembersStep(idx: Index, pods: seq<Pod>, i: nat, r: Ref)
    requires i < |pods|
    ensures Members(idx, pods[..i + 1], r)
         == if Serves(idx, pods[i], r) then Members(idx, pods[..i], r) + [pods[i]] else Members(idx, pods[..i], r)
  {
    assert pods[..i + 1][..i] == pods[..i];
  }

  ghost predicate GroupedAt(s: Snapshot, key: string, members: seq<Pod>, groups: map<Ref, Agg>, r: Ref) {
    && (r in groups <==> members != [])
    && (r in groups ==> groups[r] == AggOf(s, key, members))
  }

  lemma EnlistAt(s: Snapshot, key: string, members: seq<Pod>, groups: map<Ref, Agg>, home: Ref, pod: Pod, r: Ref)
    requires GroupedAt(s, key, members, groups, r)
    ensures GroupedAt(s, key, if r == home then members + [pod] else members,
                      Enlist(groups, home, pod, DomainOfPod(s, key, pod)), r)
  {
    if r == home { EnlistHome(s, key, members, groups, home, pod); }
  }

  lemma EnlistHome(s: Snapshot, key: string, members: seq<Pod>, groups: map<Ref, Agg>, home: Ref, pod: Pod)
    requires GroupedAt(s, key, members, groups, home)
    ensures Enlist(groups, home, pod, DomainOfPod(s, key, pod))[home] == AggOf(s, key, members + [pod])
  {
    AggStep(s, key, members, pod);
  }

  lemma GroupStep(s: Snapshot, idx: Index, key: string, i: nat, groups: map<Ref, Agg>)
    requires i < |s.pods| && Grouped(s, idx, key, s.pods[..i], groups)
    ensures Grouped(s, idx, key, s.pods[..i + 1],
      if s.pods[i].Available() then Enlist(groups, RefOf(idx, s.pods[i]), s.pods[i], DomainOfPod(s, key, s.pods[i]))
      else groups)
  {
    var pod := s.pods[i];
    var home := RefOf(idx, pod);
    var after := if pod.Available() then Enlist(groups, home, pod, DomainOfPod(s, key, pod)) else groups;
    var longer := s.pods[..i + 1];
    forall r ensures GroupedAt(s, key, Members(idx, longer, r), after, r) {
      MembersStep(idx, s.pods, i, r);
      assert GroupedAt(s, key, Members(idx, s.pods[..i], r), groups, r);
      EnlistAt(s, key, Members(idx, s.pods[..i], r), groups, home, pod, r);
    }
  }

  lemma AggStep(s: Snapshot, key: string, pods: seq<Pod>, pod: Pod)
    ensures var m := PlacementOf(s, key, pods);
      var d := DomainOfPod(s, key, pod);
      AggOf(s, key, pods + [pod]) == Agg(m[d := Spread.At(m, d) + 1], |pods| + 1, pods + [pod])
  {
    PlacementStep(s, key, pods, pod);
  }

  lemma PlacementStep(s: Snapshot, key: string, pods: seq<Pod>, pod: Pod)
    ensures var m, d := PlacementOf(s, key, pods), DomainOfPod(s, key, pod);
      PlacementOf(s, key, pods + [pod]) == m[d := Spread.At(m, d) + 1]
  {
    assert (pods + [pod])[..|pods|] == pods;
  }

  // ---------------------------------------------------------------- pins

  function PinKey(p: VolumePin.Pin): (r: string) { p.volume + "|" + p.domain }

  function AddPins(acc: seq<VolumePin.Pin>, pins: seq<VolumePin.Pin>): (r: seq<VolumePin.Pin>) {
    if pins == [] then acc
    else
      var rest := AddPins(acc, pins[..|pins| - 1]);
      var last := pins[|pins| - 1];
      if exists i | 0 <= i < |rest| :: PinKey(rest[i]) == PinKey(last) then rest else rest + [last]
  }

  /** Every pin of every pod, each volume and domain once. */
  function PinsOf(s: Snapshot, key: string, pods: seq<Pod>): (r: seq<VolumePin.Pin>) {
    if pods == [] then []
    else
      var last := pods[|pods| - 1];
      AddPins(PinsOf(s, key, pods[..|pods| - 1]), VolumePin.PinsOf(s, last.namespace, last.spec.claims, key))
  }

  method CollectPins(s: Snapshot, key: string, pods: seq<Pod>) returns (pins: seq<VolumePin.Pin>)
    ensures pins == PinsOf(s, key, pods)
  {
    var seen := {};
    pins := [];
    for i := 0 to |pods|
      invariant pins == PinsOf(s, key, pods[..i])
      invariant forall k :: k in seen <==> exists j :: 0 <= j < |pins| && PinKey(pins[j]) == k
    {
      assert pods[..i + 1][..i] == pods[..i];
      var more := VolumePin.ForPod(s, pods[i], key);
      pins, seen := MergePins(pins, seen, more);
    }
    assert pods[..|pods|] == pods;
  }

  method MergePins(acc: seq<VolumePin.Pin>, seen0: set<string>, more: seq<VolumePin.Pin>)
    returns (pins: seq<VolumePin.Pin>, seen: set<string>)
    requires forall k :: k in seen0 <==> exists j :: 0 <= j < |acc| && PinKey(acc[j]) == k
    ensures pins == AddPins(acc, more)
    ensures forall k :: k in seen <==> exists j :: 0 <= j < |pins| && PinKey(pins[j]) == k
  {
    pins, seen := acc, seen0;
    for i := 0 to |more|
      invariant pins == AddPins(acc, more[..i])
      invariant forall k :: k in seen <==> exists j :: 0 <= j < |pins| && PinKey(pins[j]) == k
    {
      assert more[..i + 1][..i] == more[..i];
      if PinKey(more[i]) in seen { continue; }
      ghost var before := pins;
      seen := seen + {PinKey(more[i])};
      pins := pins + [more[i]];
      assert pins[|before|] == more[i];
      assert forall j :: 0 <= j < |before| ==> pins[j] == before[j];
    }
    assert more[..|more|] == more;
  }

  /** Running elsewhere, but unable to run anywhere but in `d`. */
  function Stranded(s: Snapshot, key: string, d: string): (f: Pod -> bool) {
    (p: Pod) => DomainOfPod(s, key, p) != d && VolumePin.PinnedTo(s, p, key, d)
  }

  method CountStranded(s: Snapshot, key: string, byNode: map<string, string>, pods: seq<Pod>, d: string)
    returns (n: nat)
    requires Domain.NodeLookup(s.nodes, key, byNode) && d != ""
    ensures n == |Filter(pods, Stranded(s, key, d))|
  {
    n := 0;
    for i := 0 to |pods|
      invariant n == |Filter(pods[..i], Stranded(s, key, d))|
    {
      FilterStep(pods, i, Stranded(s, key, d));
      if pods[i].spec.nodeName in byNode && byNode[pods[i].spec.nodeName] == d { continue; }
      var pinned := IsPinned(s, key, pods[i], d);
      if pinned { n := n + 1; }
    }
    assert pods[..|pods|] == pods;
  }

  method IsPinned(s: Snapshot, key: string, pod: Pod, d: string) returns (pinned: bool)
    ensures pinned == VolumePin.PinnedTo(s, pod, key, d)
  {
    var pins := VolumePin.ForPod(s, pod, key);
    for j := 0 to |pins|
      invariant forall k :: 0 <= k < j ==> pins[k].domain != d
    {
      if pins[j].domain == d { return true; }
    }
    return false;
  }

  // ---------------------------------------------------------------- one verdict

  function BaseOutcome(total: nat, unlabelled: nat, survivors: int, demand: PdbCheck.Demand): (r: Outcome) {
    if total == 0 || unlabelled > 0 then Unknown
    else if survivors == 0 then Lost
    else match demand
      case Unreadable => Unknown
      case Keep(need) => if survivors < need then Degraded else Survives
      case Silent => Survives
  }

  function OutcomeFrom(total: nat, unlabelled: nat, survivors: int, pinnedHere: nat, demand: PdbCheck.Demand)
    : (r: Outcome)
  {
    if pinnedHere > 0 && survivors - pinnedHere <= 0 then Lost
    else BaseOutcome(total, unlabelled, survivors, demand)
  }

  function Replicas(idx: Index, ref: Ref, total: nat): (r: int) {
    if ref in idx.replicas then idx.replicas[ref] else total
  }

  function DemandOn(s: Snapshot, pods: seq<Pod>, replicas: int): (r: PdbCheck.Demand) {
    if pods == [] then PdbCheck.Silent else PdbCheck.DesiredAvailable(s.budgets, pods[0], replicas)
  }

  /** The outcome, computed by counting as the engine does. */
  function OutcomeOf(s: Snapshot, key: string, pods: seq<Pod>, replicas: int, d: string): (r: Outcome) {
    var placement := PlacementOf(s, key, pods);
    OutcomeFrom(|pods|, Spread.At(placement, ""), |pods| - Spread.At(placement, d),
                |Filter(pods, Stranded(s, key, d))|, DemandOn(s, pods, replicas))
  }

  function VerdictOf(s: Snapshot, idx: Index, key: string, ref: Ref, pods: seq<Pod>, d: string,
                     domainCount: nat): (r: Verdict)
  {
    var replicas := Replicas(idx, ref, |pods|);
    Verdict(
      ref,
      OutcomeOf(s, key, pods, replicas, d),
      PlacementOf(s, key, pods),
      Spread.StateOf(if pods == [] then [] else pods[0].spec.spread, key, replicas, domainCount),
      Spread.AntiAffinityState(if pods == [] then None else pods[0].spec.antiAffinity, key),
      PinsOf(s, key, pods))
  }

  method Judge(s: Snapshot, idx: Index, key: string, byNode: map<string, string>, ref: Ref, a: Agg, d: string,
               domainCount: nat)
    returns (v: Verdict)
    requires Domain.NodeLookup(s.nodes, key, byNode) && d != ""
    requires a == AggOf(s, key, a.pods)
    ensures v == VerdictOf(s, idx, key, ref, a.pods, d, domainCount)
  {
    var survivors := a.total - Spread.At(a.placement, d);
    var replicas := if ref in idx.replicas then idx.replicas[ref] else a.total;
    var spread := Spread.Classify(if |a.pods| == 0 then [] else a.pods[0].spec.spread, key, replicas, domainCount);
    var pins := CollectPins(s, key, a.pods);
    var pinnedHere := CountStranded(s, key, byNode, a.pods, d);
    var outcome;
    if a.total == 0 {
      outcome := Unknown;
    } else if Spread.At(a.placement, "") > 0 {
      outcome := Unknown;
    } else if survivors == 0 {
      outcome := Lost;
    } else {
      var demand := PdbCheck.DesiredAvailable(s.budgets, a.pods[0], replicas);
      if demand.Unreadable? {
        outcome := Unknown;
      } else if demand.Keep? && survivors < demand.n {
        outcome := Degraded;
      } else {
        outcome := Survives;
      }
    }
    if pinnedHere > 0 {
      var remaining := survivors - pinnedHere;
      if remaining < 0 { remaining := 0; }
      if remaining == 0 { outcome := Lost; }
    }
    v := Verdict(ref, outcome, a.placement, spread,
                 Spread.AntiAffinityState(if |a.pods| == 0 then None else a.pods[0].spec.antiAffinity, key), pins);
  }

  // ---------------------------------------------------------------- one domain

  function HasOutcome(o: Outcome): (f: Verdict -> bool) { (v: Verdict) => v.outcome == o }

  function LostRefs(vs: seq<Verdict>): (r: set<Ref>) {
    set i | 0 <= i < |vs| && vs[i].outcome == Lost :: vs[i].workload
  }

  function FailedRefs(vs: seq<Verdict>): (r: set<Ref>) {
    set i | 0 <= i < |vs| && (vs[i].outcome == Lost || vs[i].outcome == Unknown) :: vs[i].workload
  }

  ghost predicate VerdictAt(s: Snapshot, idx: Index, key: string, refs: seq<Ref>, domainCount: nat, res: DomainResult,
                            j: int) {
    && 0 <= j < |refs| && j < |res.verdicts|
    && res.verdicts[j] == VerdictOf(s, idx, key, refs[j], Members(idx, s.pods, refs[j]), res.domain, domainCount)
  }

  ghost predicate IsDomainResult(s: Snapshot, idx: Index, key: string, g: DepGraph.Graph, refs: seq<Ref>,
                                 domainCount: nat, res: DomainResult) {
    && |res.verdicts| == |refs|
    && (forall j {:trigger VerdictAt(s, idx, key, refs, domainCount, res, j)} :: 0 <= j < |refs| ==>
          VerdictAt(s, idx, key, refs, domainCount, res, j))
    && res.lost == |Filter(res.verdicts, HasOutcome(Lost))|
    && res.degraded == |Filter(res.verdicts, HasOutcome(Degraded))|
    && Propagate.IsImpaired(g, res.domain, FailedRefs(res.verdicts), LostRefs(res.verdicts), res.impairments)
  }

  /** The verdicts on the first workloads of `refs`, counted. */
  ghost predicate Judged(s: Snapshot, idx: Index, key: string, refs: seq<Ref>, d: string, domainCount: nat,
                         verdicts: seq<Verdict>, lost: nat, degraded: nat) {
    && |verdicts| <= |refs|
    && (forall k {:trigger RowAt(s, idx, key, refs, d, domainCount, verdicts, k)} :: 0 <= k < |verdicts| ==>
          RowAt(s, idx, key, refs, d, domainCount, verdicts, k))
    && lost == |Filter(verdicts, HasOutcome(Lost))|
    && degraded == |Filter(verdicts, HasOutcome(Degraded))|
  }

  ghost predicate RowAt(s: Snapshot, idx: Index, key: string, refs: seq<Ref>, d: string, domainCount: nat,
                        verdicts: seq<Verdict>, k: int) {
    && 0 <= k < |verdicts| <= |refs|
    && verdicts[k] == VerdictOf(s, idx, key, refs[k], Members(idx, s.pods, refs[k]), d, domainCount)
  }

  lemma RowKept(s: Snapshot, idx: Index, key: string, refs: seq<Ref>, d: string, domainCount: nat,
                verdicts: seq<Verdict>, v: Verdict, k: int)
    requires RowAt(s, idx, key, refs, d, domainCount, verdicts, k) && |verdicts| < |refs|
    ensures RowAt(s, idx, key, refs, d, domainCount, verdicts + [v], k)
  {}

  lemma JudgedStep(s: Snapshot, idx: Index, key: string, refs: seq<Ref>, d: string, domainCount: nat,
                   verdicts: seq<Verdict>, lost: nat, degraded: nat)
    requires Judged(s, idx, key, refs, d, domainCount, verdicts, lost, degraded) && |verdicts| < |refs|
    ensures var r := refs[|verdicts|];
      var v := VerdictOf(s, idx, key, r, Members(idx, s.pods, r), d, domainCount);
      Judged(s, idx, key, refs, d, domainCount, verdicts + [v],
             if v.outcome == Lost then lost + 1 else lost,
             if v.outcome == Degraded then degraded + 1 else degraded)
  {
    var r := refs[|verdicts|];
    var v := VerdictOf(s, idx, key, r, Members(idx, s.pods, r), d, domainCount);
    forall k | 0 <= k < |verdicts| + 1 ensures RowAt(s, idx, key, refs, d, domainCount, verdicts + [v], k) {
      if k < |verdicts| { RowKept(s, idx, key, refs, d, domainCount, verdicts, v, k); }
    }
    FilterAppend(verdicts, v, HasOutcome(Lost));
    FilterAppend(verdicts, v, HasOutcome(Degraded));
  }

  method AnalyzeDomain(s: Snapshot, idx: Index, key: string, g: DepGraph.Graph, byNode: map<string, string>,
                       groups: map<Ref, Agg>, refs: seq<Ref>, d: string, domainCount: nat)
    returns (res: DomainResult)
    requires Domain.NodeLookup(s.nodes, key, byNode) && d != ""
    requires Grouped(s, idx, key, s.pods, groups)
    requires forall r :: r in refs ==> r in groups
    ensures res.domain == d && IsDomainResult(s, idx, key, g, refs, domainCount, res)
  {
    var lost, degraded, verdicts := 0, 0, [];
    for j := 0 to |refs|
      invariant |verdicts| == j
      invariant Judged(s, idx, key, refs, d, domainCount, verdicts, lost, degraded)
    {
      assert refs[j] in refs;
      assert GroupedAt(s, key, Members(idx, s.pods, refs[j]), groups, refs[j]);
      var v := Judge(s, idx, key, byNode, refs[j], groups[refs[j]], d, domainCount);
      JudgedStep(s, idx, key, refs, d, domainCount, verdicts, lost, degraded);
      verdicts := verdicts + [v];
      if v.outcome == Lost { lost := lost + 1; }
      if v.outcome == Degraded { degraded := degraded + 1; }
    }
    var impairments := Propagate.Impaired(g, d, FailedRefs(verdicts), LostRefs(verdicts));
    res := DomainResult(d, lost, degraded, verdicts, impairments);
    forall j | 0 <= j < |refs| ensures VerdictAt(s, idx, key, refs, domainCount, res, j) {
      assert RowAt(s, idx, key, refs, d, domainCount, verdicts, j);
    }
  }

  // ---------------------------------------------------------------- the whole report

  /** The domains in name order, and in each the same workloads in name order: those with an
      available pod, once each. Beside them every budget's finding and the unlabelled nodes. */
  ghost predicate IsReport(s: Snapshot, idx: Index, key: string, urlHost: DepGraph.UrlHost,
                           g: DepGraph.Graph, refs: seq<Ref>, report: Report) {
    && DepGraph.IsGraph(s, idx, urlHost, g)
    && SortedBy(refs, RefLe)
    && (forall i, j :: 0 <= i < j < |refs| ==> refs[i] != refs[j])
    && (forall r :: r in refs <==> Members(idx, s.pods, r) != [])
    && Lists(DomainNames(report), Domain.DomainsOf(s.nodes, key))
    && SortedBy(DomainNames(report), StrLe)
    && (forall i {:trigger IsDomainResult(s, idx, key, g, refs, |report.domains|, report.domains[i])} ::
          0 <= i < |report.domains| ==> IsDomainResult(s, idx, key, g, refs, |report.domains|, report.domains[i]))
    && PdbCheck.IsReview(s, report.findings)
    && multiset(report.unlabelled) == multiset(Domain.Bucket(s.nodes, key, None))
  }

  function DomainNames(report: Report): (r: seq<string>) {
    seq(|report.domains|, i requires 0 <= i < |report.domains| => report.domains[i].domain)
  }

  method Analyze(s: Snapshot, key: string, urlHost: DepGraph.UrlHost)
    returns (report: Report, ghost g: DepGraph.Graph, ghost refs: seq<Ref>)
    requires UniqueNames(s.nodes)
    ensures report.domainKey == key
    ensures IsReport(s, IndexOf(s), key, urlHost, g, refs, report)
  {
    var groups, unlabelled := Domain.Group(s.nodes, key);
    var idx := NewIndex(s);
    var graph := DepGraph.Build(s, idx, urlHost);
    var byNode := Domain.NodeDomains(s.nodes, key, groups);
    var byWorkload := GroupPods(s, idx, key, byNode);
    StrOrder();
    RefOrder();
    var domains := SortedElements(groups.Keys, StrLe);
    var workloads := SortedElements(byWorkload.Keys, RefLe);
    var findings := PdbCheck.Analyze(s);
    var results: seq<DomainResult> := [];
    for i := 0 to |domains|
      invariant |results| == i
      invariant forall k :: 0 <= k < i ==>
        results[k].domain == domains[k] && IsDomainResult(s, idx, key, graph, workloads, |domains|, results[k])
    {
      assert domains[i] in domains;
      Domain.DomainNonEmpty(s.nodes, key, domains[i]);
      var res := AnalyzeDomain(s, idx, key, graph, byNode, byWorkload, workloads, domains[i], |domains|);
      results := results + [res];
    }
    report := Report(key, results, findings, unlabelled);
    assert DomainNames(report) == domains;
    g, refs := graph, workloads;
  }
}
