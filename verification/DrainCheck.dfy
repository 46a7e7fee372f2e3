/** internal/draincheck: budgets that look satisfiable but deadlock a drain, because the first
    evicted replica has nowhere else to go. */
module DrainCheck {
  import opened Basics
  import opened Cluster
  import opened Workload
  import opened Sched
  import SchedFacts
  import Survive
  import PdbCheck
  import Domain

  /** `workload` is the one the message names. */
  datatype Finding = Finding(pdb: string, namespace: string, domain: string, workload: Ref)

  // ---------------------------------------------------------------- who could be evicted

  /** An available replica of `ref` on a node of `d`. */
  predicate Resides(s: Snapshot, key: string, d: string, ref: Ref, p: Pod) {
    p.Available() && d != "" && Survive.DomainOfPod(s, key, p) == d && RefOf(IndexOf(s), p) == ref
  }

  function Resident(s: Snapshot, key: string, d: string, ref: Ref): (f: Pod -> bool) {
    (p: Pod) => Resides(s, key, d, ref, p)
  }

  function Residents(s: Snapshot, key: string, d: string, ref: Ref): (r: seq<Pod>) {
    Filter(s.pods, Resident(s, key, d, ref))
  }

  type Candidates = map<string, map<Ref, seq<Pod>>>

  function At(m: Candidates, d: string, ref: Ref): (r: seq<Pod>) {
    if d in m && ref in m[d] then m[d][ref] else []
  }

  ghost predicate NoEmptyEntry(m: Candidates) {
    forall d, ref :: d in m && ref in m[d] ==> m[d][ref] != []
  }

  function Enlist(m: Candidates, d: string, ref: Ref, p: Pod): (r: Candidates) {
    var byRef := if d in m then m[d] else map[];
    m[d := byRef[ref := (if ref in byRef then byRef[ref] else []) + [p]]]
  }

  lemma EnlistAt(m: Candidates, home: string, owner: Ref, p: Pod, d: string, ref: Ref)
    ensures At(Enlist(m, home, owner, p), d, ref)
         == if d == home && ref == owner then At(m, d, ref) + [p] else At(m, d, ref)
  {}

  method CandidatesByDomain(s: Snapshot, idx: Index, key: string, byNode: map<string, string>) returns (out: Candidates)
    requires ProperNodes(s.nodes) && Domain.NodeLookup(s.nodes, key, byNode) && idx == IndexOf(s)
    ensures forall d, ref :: At(out, d, ref) == Residents(s, key, d, ref)
    ensures NoEmptyEntry(out)
  {
    out := map[];
    Domain.DomainOfNameMiss(s.nodes, key, "");
    for i := 0 to |s.pods|
      invariant forall d, ref :: At(out, d, ref) == Filter(s.pods[..i], Resident(s, key, d, ref))
      invariant NoEmptyEntry(out)
    {
      var p := s.pods[i];
      var longer := s.pods[..i + 1];
      forall d, ref ensures Filter(longer, Resident(s, key, d, ref))
        == Filter(s.pods[..i], Resident(s, key, d, ref)) + (if Resides(s, key, d, ref, p) then [p] else [])
      {
        FilterStep(s.pods, i, Resident(s, key, d, ref));
      }
      if p.spec.nodeName == "" || !p.Available() { continue; }
      if p.spec.nodeName !in byNode { continue; }
      var home, owner := byNode[p.spec.nodeName], RefOf(idx, p);
      forall d, ref { EnlistAt(out, home, owner, p, d, ref); }
      out := Enlist(out, home, owner, p);
    }
    assert s.pods[..|s.pods|] == s.pods;
  }

  // ---------------------------------------------------------------- which budget, and what pdbcheck says of it

  predicate Selects(b: Budget, p: Pod) { b.namespace == p.namespace && b.selector.Matches(p.labels) }

  function PdbFor(budgets: seq<Budget>, p: Pod): (r: Option<Budget>) {
    if budgets == [] then None
    else if Selects(budgets[0], p) then Some(budgets[0])
    else PdbFor(budgets[1..], p)
  }

  method PdbForPod(budgets: seq<Budget>, p: Pod) returns (b: Option<Budget>)
    ensures b == PdbFor(budgets, p)
  {
    for i := 0 to |budgets|
      invariant PdbFor(budgets, p) == PdbFor(budgets[i..], p)
    {
      assert budgets[i..][0] == budgets[i] && budgets[i..][1..] == budgets[i + 1..];
      if budgets[i].namespace != p.namespace { continue; }
      if budgets[i].selector.Matches(p.labels) { return Some(budgets[i]); }
    }
    return None;
  }

  /** The last finding recorded under a name. */
  function BlockUnder(all: seq<Budget>, pods: seq<Pod>, budgets: seq<Budget>, k: string): (r: PdbCheck.Block) {
    if budgets == [] then PdbCheck.Unblocked
    else
      var b := budgets[|budgets| - 1];
      if b.Key() == k then PdbCheck.BlockOf(all, pods, b) else BlockUnder(all, pods, budgets[..|budgets| - 1], k)
  }

  method BlockByPDB(s: Snapshot) returns (out: map<string, PdbCheck.Block>)
    ensures forall k :: PdbCheck.Lookup(out, k, PdbCheck.Unblocked) == BlockUnder(s.budgets, s.pods, s.budgets, k)
  {
    var findings := PdbCheck.Analyze(s);
    out := map[];
    for i := 0 to |findings|
      invariant forall k ::
        PdbCheck.Lookup(out, k, PdbCheck.Unblocked) == BlockUnder(s.budgets, s.pods, s.budgets[..i], k)
    {
      assert s.budgets[..i + 1][..i] == s.budgets[..i];
      out := out[findings[i].namespace + "/" + findings[i].budget := findings[i].block];
    }
    assert s.budgets[..|s.budgets|] == s.budgets;
  }

  // ---------------------------------------------------------------- the replacement

  /** The victim's own spec, unassigned; labels, owners and identity are the victim's. */
  function Candidate(victim: Pod): (r: Pod) {
    victim.(spec := victim.spec.(nodeName := ""), phase := PhaseUnknown, ready := false)
  }

  /** It is the victim in all but node and status. */
  lemma CandidateMeans(victim: Pod)
    ensures var c := Candidate(victim);
      && c.spec.nodeName == "" && !c.Available() && !c.Assigned()
      && c.(phase := victim.phase, ready := victim.ready, spec := c.spec.(nodeName := victim.spec.nodeName)) == victim
  {}

  /** Every node that takes the replacement is inside the domain being drained. */
  ghost predicate OnlyInside(filter: Plugins, nodes: seq<Node>, key: string, view: View, pod: Pod, d: string) {
    forall i :: 0 <= i < |nodes| && filter.accepts(view, pod, nodes[i]) ==> Domain.Of(nodes[i], key) == Some(d)
  }

  method OnlyFitsInside(fits: seq<Fit>, exclude: string) returns (blocked: bool)
    ensures blocked <==> forall i :: 0 <= i < |fits| && fits[i].ok ==> fits[i].domain == exclude
  {
    blocked := true;
    for i := 0 to |fits|
      invariant blocked && forall j :: 0 <= j < i && fits[j].ok ==> fits[j].domain == exclude
    {
      if fits[i].domain == exclude { continue; }
      if fits[i].ok { return false; }
      blocked := true;
    }
  }

  predicate NameLe(a: Pod, b: Pod) { StrLe(a.name, b.name) }

  lemma NameOrder()
    ensures TotalPreorder(NameLe)
  {
    StrOrder();
  }

  /** The first of the replicas by name. */
  ghost predicate IsVictim(pods: seq<Pod>, victim: Pod) {
    victim in pods && forall p :: p in pods ==> NameLe(victim, p)
  }

  /** The cluster without the victim. */
  ghost function Without(s: Snapshot, victim: Pod): (r: View) { RemoveAll(Seed(s.pods), [victim]) }

  /** The budget the check looks at: the first that selects the first replica in snapshot
      order, unless the static check already flags it. */
  function Checked(s: Snapshot, pods: seq<Pod>): (r: Option<Budget>)
    requires pods != []
  {
    match PdbFor(s.budgets, pods[0])
    case None => None
    case Some(b) => if BlockUnder(s.budgets, s.pods, s.budgets, b.Key()) == PdbCheck.Unblocked then Some(b) else None
  }

  ghost predicate Deadlocks(filter: Plugins, s: Snapshot, key: string, d: string, victim: Pod) {
    OnlyInside(filter, s.nodes, key, Without(s, victim), Candidate(victim), d)
  }

  ghost function FindingFor(filter: Plugins, s: Snapshot, key: string, d: string, ref: Ref, victim: Pod)
    : (r: seq<Finding>)
  {
    var pods := Residents(s, key, d, ref);
    if pods == [] || Checked(s, pods).None? || !Deadlocks(filter, s, key, d, victim) then []
    else [Finding(Checked(s, pods).value.name, Checked(s, pods).value.namespace, d, ref)]
  }

  /** The scheduler answers about this replacement at all. */
  ghost predicate Answerable(filter: Plugins, s: Snapshot, key: string, d: string, ref: Ref, victim: Pod) {
    var pods := Residents(s, key, d, ref);
    pods != [] && Checked(s, pods).Some? ==> filter.admits(Without(s, victim), Candidate(victim))
  }

  /** The scheduler was built over this snapshot and holds exactly its assigned pods. */
  ghost predicate Over(sched: Scheduler, s: Snapshot)
    reads sched
  {
    && sched.Valid() && sched.nodes == s.nodes
    && SchedFacts.Seedable(s.pods) && sched.cache == Seed(s.pods)
  }

  method DetectOne(sched: Scheduler, s: Snapshot, key: string, blocks: map<string, PdbCheck.Block>, d: string, ref: Ref,
                   residents: seq<Pod>) returns (r: Result<seq<Finding>>, ghost victim: Pod)
    requires Over(sched, s) && residents == Residents(s, key, d, ref) != []
    requires forall k :: PdbCheck.Lookup(blocks, k, PdbCheck.Unblocked) == BlockUnder(s.budgets, s.pods, s.budgets, k)
    modifies sched
    ensures Over(sched, s) && sched.view == old(sched.view)
    ensures IsVictim(residents, victim)
    ensures r.Ok? <==> Answerable(sched.filter, s, key, d, ref, victim)
    ensures r.Ok? ==> r.value == FindingFor(sched.filter, s, key, d, ref, victim)
  {
    NameOrder();
    var pods := SortSlice(residents, NameLe);
    SortedLeast(residents, pods);
    victim := pods[0];
    var pdb := PdbForPod(s.budgets, residents[0]);
    if pdb.None? { return Ok([]), victim; }
    if PdbCheck.Lookup(blocks, pdb.value.Key(), PdbCheck.Unblocked) != PdbCheck.Unblocked { return Ok([]), victim; }
    ResidentAssigned(s, key, d, ref, victim);
    SchedFacts.PodRollsBack(s.pods, victim);
    var fits := sched.FitsReplacing(Candidate(pods[0]), key, [pods[0]]);
    if fits.Err? { return Err, victim; }
    var blocked := OnlyFitsInside(fits.value, d);
    BlockedMeans(sched.filter, s.nodes, key, Without(s, victim), Candidate(victim), d, fits.value);
    if !blocked { return Ok([]), victim; }
    return Ok([Finding(pdb.value.name, pdb.value.namespace, d, ref)]), victim;
  }

  lemma SortedLeast(pods: seq<Pod>, sorted: seq<Pod>)
    requires pods != [] && multiset(sorted) == multiset(pods) && SortedBy(sorted, NameLe) && TotalPreorder(NameLe)
    ensures sorted != [] && IsVictim(pods, sorted[0])
  {
    assert |sorted| == |pods| by { assert |multiset(sorted)| == |multiset(pods)|; }
    assert sorted[0] in multiset(pods);
    forall p | p in pods ensures NameLe(sorted[0], p) {
      assert p in multiset(sorted);
      var i :| 0 <= i < |sorted| && sorted[i] == p;
    }
  }

  /** A pod that could be evicted occupies a node in the scheduler's cache. */
  lemma ResidentAssigned(s: Snapshot, key: string, d: string, ref: Ref, p: Pod)
    requires ProperNodes(s.nodes) && p in Residents(s, key, d, ref)
    ensures p in s.pods && Resides(s, key, d, ref, p) && p.Assigned()
  {
    FilterMembers(s.pods, Resident(s, key, d, ref));
    Domain.DomainOfNameMiss(s.nodes, key, "");
  }

  lemma BlockedMeans(filter: Plugins, nodes: seq<Node>, key: string, view: View, pod: Pod, d: string, fits: seq<Fit>)
    requires AreFits(filter, nodes, key, view, pod, fits) && d != ""
    ensures OnlyInside(filter, nodes, key, view, pod, d)
       <==> forall i :: 0 <= i < |fits| && fits[i].ok ==> fits[i].domain == d
  {
    forall i | 0 <= i < |nodes|
      ensures IsFit(filter, nodes[i], key, view, pod, fits[i])
    {}
    if OnlyInside(filter, nodes, key, view, pod, d) {
      forall i | 0 <= i < |fits| && fits[i].ok ensures fits[i].domain == d {
        assert filter.accepts(view, pod, nodes[i]);
      }
    }
  }

  // ---------------------------------------------------------------- one domain, and all of them

  /** The workloads with a replica to evict in `d`, once each, in name order. */
  ghost predicate Roster(s: Snapshot, key: string, d: string, refs: seq<Ref>) {
    && SortedBy(refs, RefLe)
    && (forall i, j :: 0 <= i < j < |refs| ==> refs[i] != refs[j])
    && forall r :: r in refs <==> Residents(s, key, d, r) != []
  }

  /** The workload was probed through this replica. */
  ghost predicate Probed(filter: Plugins, s: Snapshot, key: string, d: string, ref: Ref, victim: Pod) {
    IsVictim(Residents(s, key, d, ref), victim) && Answerable(filter, s, key, d, ref, victim)
  }

  ghost predicate AllProbed(filter: Plugins, s: Snapshot, key: string, d: string, refs: seq<Ref>, victims: seq<Pod>) {
    |victims| == |refs| && forall i :: 0 <= i < |refs| ==> Probed(filter, s, key, d, refs[i], victims[i])
  }

  ghost function FindingsFor(filter: Plugins, s: Snapshot, key: string, d: string, refs: seq<Ref>,
                             victims: seq<Pod>): (r: seq<Finding>)
    requires |victims| == |refs|
  {
    if refs == [] then []
    else
      FindingsFor(filter, s, key, d, refs[..|refs| - 1], victims[..|refs| - 1])
      + FindingFor(filter, s, key, d, refs[|refs| - 1], victims[|refs| - 1])
  }

  /** Some replacement the scheduler will not even consider. */
  ghost predicate Unanswerable(filter: Plugins, s: Snapshot, key: string) {
    exists d, ref, victim :: d in Domain.DomainsOf(s.nodes, key)
      && IsVictim(Residents(s, key, d, ref), victim) && !Answerable(filter, s, key, d, ref, victim)
  }

  ghost predicate DetectedIn(filter: Plugins, s: Snapshot, key: string, d: string, out: seq<Finding>) {
    exists refs, victims :: Roster(s, key, d, refs) && AllProbed(filter, s, key, d, refs, victims)
      && out == FindingsFor(filter, s, key, d, refs, victims)
  }

  method SortedRefs(m: Candidates, ghost s: Snapshot, key: string, d: string) returns (refs: seq<Ref>)
    requires forall r :: At(m, d, r) == Residents(s, key, d, r)
    requires NoEmptyEntry(m)
    ensures Roster(s, key, d, refs)
    ensures forall r :: r in refs ==> d in m && r in m[d]
  {
    RefOrder();
    var byRef: map<Ref, seq<Pod>> := if d in m then m[d] else map[];
    refs := SortedElements(byRef.Keys, RefLe);
    assert forall r :: r in byRef.Keys <==> At(m, d, r) != [];
  }

  lemma ProbedStep(filter: Plugins, s: Snapshot, key: string, d: string, refs: seq<Ref>, j: nat, victims: seq<Pod>,
                   victim: Pod)
    requires j < |refs| && AllProbed(filter, s, key, d, refs[..j], victims)
    requires Probed(filter, s, key, d, refs[j], victim)
    ensures AllProbed(filter, s, key, d, refs[..j + 1], victims + [victim])
    ensures FindingsFor(filter, s, key, d, refs[..j + 1], victims + [victim])
         == FindingsFor(filter, s, key, d, refs[..j], victims) + FindingFor(filter, s, key, d, refs[j], victim)
  {
    assert refs[..j + 1][..j] == refs[..j] && (victims + [victim])[..j] == victims;
  }

  method DetectDomain(sched: Scheduler, s: Snapshot, key: string, blocks: map<string, PdbCheck.Block>, m: Candidates,
                      d: string)
    returns (r: Result<seq<Finding>>)
    requires Over(sched, s) && d in Domain.DomainsOf(s.nodes, key)
    requires forall ref :: At(m, d, ref) == Residents(s, key, d, ref)
    requires NoEmptyEntry(m)
    requires forall k :: PdbCheck.Lookup(blocks, k, PdbCheck.Unblocked) == BlockUnder(s.budgets, s.pods, s.budgets, k)
    modifies sched
    ensures Over(sched, s) && sched.view == old(sched.view)
    ensures r.Ok? ==> DetectedIn(sched.filter, s, key, d, r.value)
    ensures r.Err? ==> Unanswerable(sched.filter, s, key)
  {
    var refs := SortedRefs(m, s, key, d);
    var out: seq<Finding> := [];
    ghost var victims: seq<Pod> := [];
    for j := 0 to |refs|
      invariant Over(sched, s) && sched.view == old(sched.view)
      invariant AllProbed(sched.filter, s, key, d, refs[..j], victims)
      invariant out == FindingsFor(sched.filter, s, key, d, refs[..j], victims)
    {
      assert refs[j] in refs;
      assert At(m, d, refs[j]) == m[d][refs[j]];
      var found, victim := DetectOne(sched, s, key, blocks, d, refs[j], m[d][refs[j]]);
      if found.Err? { return Err; }
      ProbedStep(sched.filter, s, key, d, refs, j, victims, victim);
      out := out + found.value;
      victims := victims + [victim];
    }
    assert refs[..|refs|] == refs;
    r := Ok(out);
  }

  ghost predicate AreBlocks(filter: Plugins, s: Snapshot, key: string, domains: seq<string>,
                            blocks: seq<seq<Finding>>) {
    && |blocks| == |domains|
    && forall i {:trigger DetectedIn(filter, s, key, domains[i], blocks[i])} ::
         0 <= i < |domains| ==> DetectedIn(filter, s, key, domains[i], blocks[i])
  }

  /** `out` is the concatenation of the domains' findings, in order. */
  ghost predicate Detected(filter: Plugins, s: Snapshot, key: string, domains: seq<string>, out: seq<Finding>) {
    exists blocks :: AreBlocks(filter, s, key, domains, blocks) && out == Concat(blocks)
  }

  method Detect(sched: Scheduler, s: Snapshot, key: string) returns (r: Result<seq<Finding>>, ghost order: seq<string>)
    requires Over(sched, s)
    modifies sched
    ensures Over(sched, s) && sched.view == old(sched.view)
    ensures Lists(order, Domain.DomainsOf(s.nodes, key)) && SortedBy(order, StrLe)
    ensures r.Ok? ==> Detected(sched.filter, s, key, order, r.value)
    ensures r.Err? ==> Unanswerable(sched.filter, s, key)
  {
    var groups, _ := Domain.Group(s.nodes, key);
    StrOrder();
    var domains := SortedElements(groups.Keys, StrLe);
    order := domains;
    assert domains == [] || domains[0] in groups.Keys;
    if |groups| == 0 {
      assert AreBlocks(sched.filter, s, key, domains, []);
      return Ok([]), order;
    }
    var byNode := Domain.NodeDomains(s.nodes, key, groups);
    var idx := NewIndex(s);
    var blocks := BlockByPDB(s);
    var victims := CandidatesByDomain(s, idx, key, byNode);
    r := DetectAll(sched, s, key, blocks, victims, domains);
  }

  method DetectAll(sched: Scheduler, s: Snapshot, key: string, blocks: map<string, PdbCheck.Block>, m: Candidates,
                   domains: seq<string>) returns (r: Result<seq<Finding>>)
    requires Over(sched, s) && forall d :: d in domains ==> d in Domain.DomainsOf(s.nodes, key)
    requires forall d, ref :: At(m, d, ref) == Residents(s, key, d, ref)
    requires NoEmptyEntry(m)
    requires forall k :: PdbCheck.Lookup(blocks, k, PdbCheck.Unblocked) == BlockUnder(s.budgets, s.pods, s.budgets, k)
    modifies sched
    ensures Over(sched, s) && sched.view == old(sched.view)
    ensures r.Ok? ==> Detected(sched.filter, s, key, domains, r.value)
    ensures r.Err? ==> Unanswerable(sched.filter, s, key)
  {
    var out: seq<Finding> := [];
    ghost var found: seq<seq<Finding>> := [];
    for i := 0 to |domains|
      invariant Over(sched, s) && sched.view == old(sched.view)
      invariant AreBlocks(sched.filter, s, key, domains[..i], found) && out == Concat(found)
    {
      assert domains[i] in domains;
      var block := DetectDomain(sched, s, key, blocks, m, domains[i]);
      if block.Err? { return Err; }
      assert (found + [block.value])[..i] == found;
      out := out + block.value;
      found := found + [block.value];
    }
    assert domains[..|domains|] == domains;
    r := Ok(out);
  }

  // ---------------------------------------------------------------- what the list says

  ghost predicate ListedAt(filter: Plugins, s: Snapshot, key: string, d: string, refs: seq<Ref>, victims: seq<Pod>,
                           f: Finding, i: int)
  {
    0 <= i < |refs| && i < |victims| && f in FindingFor(filter, s, key, d, refs[i], victims[i])
  }

  lemma {:induction false} FindingsMembers(filter: Plugins, s: Snapshot, key: string, d: string, refs: seq<Ref>,
                                           victims: seq<Pod>, f: Finding)
    requires |victims| == |refs|
    ensures f in FindingsFor(filter, s, key, d, refs, victims)
       <==> exists i :: ListedAt(filter, s, key, d, refs, victims, f, i)
  {
    if refs != [] {
      var init, vs := refs[..|refs| - 1], victims[..|refs| - 1];
      FindingsMembers(filter, s, key, d, init, vs, f);
      if i :| ListedAt(filter, s, key, d, init, vs, f, i) {
        assert ListedAt(filter, s, key, d, refs, victims, f, i);
      }
      if i :| ListedAt(filter, s, key, d, refs, victims, f, i) {
        if i < |init| {
          assert ListedAt(filter, s, key, d, init, vs, f, i);
        }
      }
      assert f in FindingFor(filter, s, key, d, refs[|refs| - 1], victims[|refs| - 1])
        <==> ListedAt(filter, s, key, d, refs, victims, f, |refs| - 1);
    }
  }

  /** The check probed `ref` in `d` through `victim` and flagged it, under budget `b`. */
  ghost predicate Flagged(filter: Plugins, s: Snapshot, key: string, d: string, ref: Ref, b: Budget, victim: Pod) {
    && Probed(filter, s, key, d, ref, victim)
    && Residents(s, key, d, ref) != []
    && Checked(s, Residents(s, key, d, ref)) == Some(b)
    && Deadlocks(filter, s, key, d, victim)
  }

  lemma FlaggedFinding(filter: Plugins, s: Snapshot, key: string, d: string, ref: Ref, victim: Pod, f: Finding)
    returns (b: Budget)
    requires Probed(filter, s, key, d, ref, victim) && f in FindingFor(filter, s, key, d, ref, victim)
    ensures Flagged(filter, s, key, d, ref, b, victim) && f == Finding(b.name, b.namespace, d, ref)
  {
    b := Checked(s, Residents(s, key, d, ref)).value;
  }

  lemma FlaggedListed(filter: Plugins, s: Snapshot, key: string, d: string, ref: Ref, b: Budget, victim: Pod)
    requires Flagged(filter, s, key, d, ref, b, victim)
    ensures FindingFor(filter, s, key, d, ref, victim) == [Finding(b.name, b.namespace, d, ref)]
  {}

  lemma SoundIn(filter: Plugins, s: Snapshot, key: string, d: string, block: seq<Finding>, f: Finding)
    returns (b: Budget, victim: Pod)
    requires DetectedIn(filter, s, key, d, block) && f in block
    ensures Flagged(filter, s, key, d, f.workload, b, victim) && f == Finding(b.name, b.namespace, d, f.workload)
  {
    var refs, victims :| Roster(s, key, d, refs) && AllProbed(filter, s, key, d, refs, victims)
      && block == FindingsFor(filter, s, key, d, refs, victims);
    FindingsMembers(filter, s, key, d, refs, victims, f);
    var i :| ListedAt(filter, s, key, d, refs, victims, f, i);
    b := FlaggedFinding(filter, s, key, d, refs[i], victims[i], f);
    victim := victims[i];
  }

  /** Sound: a finding names a domain with a workload of which the first replica by name, once
      evicted, has no accepting node outside, under a budget the static check lets pass. */
  lemma FindingSound(filter: Plugins, s: Snapshot, key: string, domains: seq<string>, out: seq<Finding>, f: Finding)
    returns (b: Budget, victim: Pod)
    requires Detected(filter, s, key, domains, out) && f in out
    ensures f == Finding(b.name, b.namespace, f.domain, f.workload) && f.domain in domains
    ensures Flagged(filter, s, key, f.domain, f.workload, b, victim)
  {
    var blocks :| AreBlocks(filter, s, key, domains, blocks) && out == Concat(blocks);
    ConcatMembers(blocks, f);
    var i :| 0 <= i < |blocks| && f in blocks[i];
    assert DetectedIn(filter, s, key, domains[i], blocks[i]);
    b, victim := SoundIn(filter, s, key, domains[i], blocks[i], f);
  }

  /** A flagged workload is on the list. */
  ghost predicate ListsFlagged(filter: Plugins, s: Snapshot, key: string, d: string, ref: Ref, victim: Pod,
                               out: seq<Finding>)
  {
    forall b :: Flagged(filter, s, key, d, ref, b, victim) ==> Finding(b.name, b.namespace, d, ref) in out
  }

  lemma FlaggedIn(filter: Plugins, s: Snapshot, key: string, d: string, ref: Ref, victim: Pod, block: seq<Finding>)
    requires forall f :: f in FindingFor(filter, s, key, d, ref, victim) ==> f in block
    ensures ListsFlagged(filter, s, key, d, ref, victim, block)
  {
    forall b | Flagged(filter, s, key, d, ref, b, victim) ensures Finding(b.name, b.namespace, d, ref) in block {
      FlaggedListed(filter, s, key, d, ref, b, victim);
      assert Finding(b.name, b.namespace, d, ref) in FindingFor(filter, s, key, d, ref, victim);
    }
  }

  lemma CompleteIn(filter: Plugins, s: Snapshot, key: string, d: string, block: seq<Finding>, ref: Ref)
    returns (victim: Pod)
    requires DetectedIn(filter, s, key, d, block) && Residents(s, key, d, ref) != []
    ensures Probed(filter, s, key, d, ref, victim)
    ensures ListsFlagged(filter, s, key, d, ref, victim, block)
  {
    var refs, victims :| Roster(s, key, d, refs) && AllProbed(filter, s, key, d, refs, victims)
      && block == FindingsFor(filter, s, key, d, refs, victims);
    var i :| 0 <= i < |refs| && refs[i] == ref;
    victim := victims[i];
    forall f | f in FindingFor(filter, s, key, d, ref, victim) ensures f in block {
      assert ListedAt(filter, s, key, d, refs, victims, f, i);
      FindingsMembers(filter, s, key, d, refs, victims, f);
    }
    FlaggedIn(filter, s, key, d, ref, victim, block);
  }

  lemma FlaggedInAll(filter: Plugins, s: Snapshot, key: string, d: string, ref: Ref, victim: Pod,
                     blocks: seq<seq<Finding>>, i: nat)
    requires i < |blocks| && ListsFlagged(filter, s, key, d, ref, victim, blocks[i])
    ensures ListsFlagged(filter, s, key, d, ref, victim, Concat(blocks))
  {
    forall b | Flagged(filter, s, key, d, ref, b, victim)
      ensures Finding(b.name, b.namespace, d, ref) in Concat(blocks)
    {
      ConcatMembers(blocks, Finding(b.name, b.namespace, d, ref));
    }
  }

  /** Complete: every workload with a replica in a domain was asked about, through its first
      replica by name, and is listed whenever that replica's eviction deadlocks. */
  lemma FindingComplete(filter: Plugins, s: Snapshot, key: string, domains: seq<string>, out: seq<Finding>,
                        d: string, ref: Ref) returns (victim: Pod)
    requires Detected(filter, s, key, domains, out) && d in domains && Residents(s, key, d, ref) != []
    ensures Probed(filter, s, key, d, ref, victim)
    ensures ListsFlagged(filter, s, key, d, ref, victim, out)
  {
    var blocks :| AreBlocks(filter, s, key, domains, blocks) && out == Concat(blocks);
    var i :| 0 <= i < |domains| && domains[i] == d;
    assert DetectedIn(filter, s, key, domains[i], blocks[i]);
    victim := CompleteIn(filter, s, key, d, blocks[i], ref);
    FlaggedInAll(filter, s, key, d, ref, victim, blocks, i);
  }

  /** With distinct replica names the victim is determined, so the list is exact: a workload is
      on it iff its first replica's eviction deadlocks. */
  lemma FindingExact(filter: Plugins, s: Snapshot, key: string, domains: seq<string>, out: seq<Finding>,
                     d: string, ref: Ref, victim: Pod)
    requires Detected(filter, s, key, domains, out) && d in domains
    requires IsVictim(Residents(s, key, d, ref), victim)
    requires forall p :: p in Residents(s, key, d, ref) && p.name == victim.name ==> p == victim
    ensures (exists f :: f in out && f.domain == d && f.workload == ref)
       <==> exists b :: Flagged(filter, s, key, d, ref, b, victim)
  {
    if f :| f in out && f.domain == d && f.workload == ref {
      var b, w := FindingSound(filter, s, key, domains, out, f);
      OneVictim(Residents(s, key, d, ref), victim, w);
    }
    if b :| Flagged(filter, s, key, d, ref, b, victim) {
      var v := FindingComplete(filter, s, key, domains, out, d, ref);
      OneVictim(Residents(s, key, d, ref), victim, v);
      assert Finding(b.name, b.namespace, d, ref) in out;
    }
  }

  lemma OneVictim(pods: seq<Pod>, a: Pod, b: Pod)
    requires IsVictim(pods, a) && IsVictim(pods, b)
    requires forall p :: p in pods && p.name == a.name ==> p == a
    ensures a == b
  {
    StrLeAntisymmetric(a.name, b.name);
  }

  /** The order of the list: by domain, and within a domain by the workload's name; a workload comes
      once for a domain. */
  ghost predicate Precedes(f: Finding, g: Finding) {
    && StrLe(f.domain, g.domain)
    && (f.domain == g.domain ==> RefLe(f.workload, g.workload) && f.workload != g.workload)
  }

  ghost predicate InOrder(out: seq<Finding>) {
    forall i, j :: 0 <= i < j < |out| ==> Precedes(out[i], out[j])
  }

  lemma {:induction false} RosterInOrder(filter: Plugins, s: Snapshot, key: string, d: string, refs: seq<Ref>,
                                         victims: seq<Pod>)
    requires |victims| == |refs| && SortedBy(refs, RefLe)
    requires forall i, j :: 0 <= i < j < |refs| ==> refs[i] != refs[j]
    ensures InOrder(FindingsFor(filter, s, key, d, refs, victims))
    ensures forall f :: f in FindingsFor(filter, s, key, d, refs, victims) ==> f.domain == d && f.workload in refs
  {
    StrOrder();
    if refs != [] { RosterInOrder(filter, s, key, d, refs[..|refs| - 1], victims[..|refs| - 1]); }
  }

  lemma DetectedInOrder(filter: Plugins, s: Snapshot, key: string, d: string, block: seq<Finding>)
    requires DetectedIn(filter, s, key, d, block)
    ensures InOrder(block) && forall f :: f in block ==> f.domain == d
  {
    var refs, victims :| Roster(s, key, d, refs) && AllProbed(filter, s, key, d, refs, victims)
      && block == FindingsFor(filter, s, key, d, refs, victims);
    RosterInOrder(filter, s, key, d, refs, victims);
  }

  lemma AppendInOrder(front: seq<Finding>, block: seq<Finding>, domains: seq<string>, d: string)
    requires InOrder(front) && forall f :: f in front ==> f.domain in domains
    requires InOrder(block) && forall f :: f in block ==> f.domain == d
    requires d !in domains && forall e :: e in domains ==> StrLe(e, d)
    ensures InOrder(front + block)
  {}

  lemma {:induction false} BlocksInOrder(filter: Plugins, s: Snapshot, key: string, domains: seq<string>,
                                         blocks: seq<seq<Finding>>)
    requires AreBlocks(filter, s, key, domains, blocks) && SortedBy(domains, StrLe)
    requires forall i, j :: 0 <= i < j < |domains| ==> domains[i] != domains[j]
    ensures InOrder(Concat(blocks)) && forall f :: f in Concat(blocks) ==> f.domain in domains
  {
    if blocks != [] {
      var n := |blocks| - 1;
      forall i | 0 <= i < n ensures DetectedIn(filter, s, key, domains[..n][i], blocks[..n][i]) {
        assert DetectedIn(filter, s, key, domains[i], blocks[i]);
      }
      BlocksInOrder(filter, s, key, domains[..n], blocks[..n]);
      assert DetectedIn(filter, s, key, domains[n], blocks[n]);
      DetectedInOrder(filter, s, key, domains[n], blocks[n]);
      AppendInOrder(Concat(blocks[..n]), blocks[n], domains[..n], domains[n]);
    }
  }

  lemma FindingsInOrder(filter: Plugins, s: Snapshot, key: string, domains: seq<string>, out: seq<Finding>)
    requires Detected(filter, s, key, domains, out) && SortedBy(domains, StrLe)
    requires Lists(domains, Domain.DomainsOf(s.nodes, key))
    ensures InOrder(out)
  {
    var blocks :| AreBlocks(filter, s, key, domains, blocks) && out == Concat(blocks);
    BlocksInOrder(filter, s, key, domains, blocks);
  }
}
