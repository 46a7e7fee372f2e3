/** internal/sched: simulated placement over a scheduler cache that is always put back. */
module Sched {
  import opened Basics
  import opened Cluster
  import Domain

  /** What the plugins see: the pods that occupy nodes, by UID. */
  type View = map<string, Pod>

  /** The scheduler's PreFilter and Filter plugins, whose decisions are taken as given: whether PreFilter
      lets the pod through, whether a node is accepted, and the rejection message. */
  datatype Plugins = Plugins(
    admits: (View, Pod) -> bool,
    accepts: (View, Pod, Node) -> bool,
    message: (View, Pod, Node) -> string)

  datatype Fit = Fit(node: string, domain: string, ok: bool, reason: string)

  datatype Placement = Placement(nodes: seq<string>, domains: map<string, nat>, unschedulable: nat, reason: string)

  const NO_NODE := "no node accepted the pod"

  // ---------------------------------------------------------------- what one simulation decides

  function Sim(pod: Pod, i: nat): (r: Pod) {
    pod.(name := pod.name + "-sim-" + Itoa(i),
         uid := pod.uid + "-sim-" + Itoa(i),
         spec := pod.spec.(nodeName := ""))
  }

  function Bound(pod: Pod, i: nat, node: string): (r: Pod) {
    var c := Sim(pod, i);
    c.(spec := c.spec.(nodeName := node), phase := Running)
  }

  /** The first node, in snapshot order, that the plugins accept. */
  function FirstNode(f: Plugins, nodes: seq<Node>, view: View, pod: Pod): (r: Option<string>) {
    if nodes == [] then None
    else if f.accepts(view, pod, nodes[0]) then Some(nodes[0].name)
    else FirstNode(f, nodes[1..], view, pod)
  }

  /** The first rejection message that says anything. */
  function FirstMessage(f: Plugins, nodes: seq<Node>, view: View, pod: Pod): (m: string)
    ensures m != ""
  {
    if nodes == [] then NO_NODE
    else if f.message(view, pod, nodes[0]) != "" then f.message(view, pod, nodes[0])
    else FirstMessage(f, nodes[1..], view, pod)
  }

  /** One placement problem: where, what, and the view it starts from. */
  datatype Job = Job(filter: Plugins, nodes: seq<Node>, key: string, pod: Pod, start: View) {

    /** The view replica `i` is placed in: earlier replicas included. */
    function ViewAt(i: nat): (r: View) {
      if i == 0 then start
      else
        match FirstNode(filter, nodes, ViewAt(i - 1), Sim(pod, i - 1))
        case Some(n) => ViewAt(i - 1)[Sim(pod, i - 1).uid := Bound(pod, i - 1, n)]
        case None => ViewAt(i - 1)
    }

    function ChoiceAt(i: nat): (r: Option<string>) {
      FirstNode(filter, nodes, ViewAt(i), Sim(pod, i))
    }

    /** Replica `i` ends the simulation with an error: PreFilter rejects it, or its UID is taken. */
    predicate FailsAt(i: nat) {
      || !filter.admits(ViewAt(i), Sim(pod, i))
      || (ChoiceAt(i).Some? && Sim(pod, i).uid in ViewAt(i))
    }

    predicate Clean(replicas: nat) {
      forall i | 0 <= i < replicas :: !FailsAt(i)
    }

    function DomainOf(node: string): (r: string) { Domain.DomainOfName(nodes, key, node) }

    /** The answer after `r` replicas. */
    function Outcome(r: nat): (out: Placement) {
      if r == 0 then Placement([], map[], 0, "")
      else
        var p := Outcome(r - 1);
        match ChoiceAt(r - 1)
        case Some(n) =>
          Placement(p.nodes + [n],
                    if DomainOf(n) == "" then p.domains else Tally(p.domains, DomainOf(n)),
                    p.unschedulable, p.reason)
        case None =>
          Placement(p.nodes, p.domains, p.unschedulable + 1,
                    if p.reason == "" then FirstMessage(filter, nodes, ViewAt(r - 1), Sim(pod, r - 1)) else p.reason)
    }
  }

  function Tally(m: map<string, nat>, d: string): (r: map<string, nat>) {
    m[d := (if d in m then m[d] else 0) + 1]
  }

  // ---------------------------------------------------------------- cache arithmetic

  function IsAssigned(): (f: Pod -> bool) { (p: Pod) => p.Assigned() }

  function AddAll(base: View, pods: seq<Pod>): (r: View) {
    if pods == [] then base
    else AddAll(base, pods[..|pods| - 1])[pods[|pods| - 1].uid := pods[|pods| - 1]]
  }

  function RemoveAll(base: View, pods: seq<Pod>): (r: View) {
    if pods == [] then base
    else RemoveAll(base, pods[..|pods| - 1]) - {pods[|pods| - 1].uid}
  }

  /** Each pod's UID is new when its turn comes. */
  ghost predicate Addable(base: View, pods: seq<Pod>) {
    pods == [] ||
    (Addable(base, pods[..|pods| - 1]) && pods[|pods| - 1].uid !in AddAll(base, pods[..|pods| - 1]))
  }

  /** Each pod's UID is still there when its turn comes. */
  ghost predicate Removable(base: View, pods: seq<Pod>) {
    pods == [] ||
    (Removable(base, pods[..|pods| - 1]) && pods[|pods| - 1].uid in RemoveAll(base, pods[..|pods| - 1]))
  }

  lemma {:induction false} AddablePrefix(base: View, pods: seq<Pod>, k: nat)
    requires k <= |pods| && Addable(base, pods)
    ensures Addable(base, pods[..k])
    ensures k < |pods| ==> pods[k].uid !in AddAll(base, pods[..k])
  {
    if k == |pods| {
      assert pods[..k] == pods;
    } else {
      var init := pods[..|pods| - 1];
      assert pods[..k] == init[..k];
      if k < |init| { assert pods[k] == init[k]; } else { assert init[..k] == init; }
      AddablePrefix(base, init, k);
    }
  }

  lemma {:induction false} RemovablePrefix(base: View, pods: seq<Pod>, k: nat)
    requires k <= |pods| && Removable(base, pods)
    ensures Removable(base, pods[..k])
    ensures k < |pods| ==> pods[k].uid in RemoveAll(base, pods[..k])
  {
    if k == |pods| {
      assert pods[..k] == pods;
    } else {
      var init := pods[..|pods| - 1];
      assert pods[..k] == init[..k];
      if k < |init| { assert pods[k] == init[k]; } else { assert init[..k] == init; }
      RemovablePrefix(base, init, k);
    }
  }

  /** The cache holds exactly these pods under their UIDs. */
  ghost predicate Holds(base: View, pods: seq<Pod>) {
    forall i :: 0 <= i < |pods| ==> pods[i].uid in base && base[pods[i].uid] == pods[i]
  }

  ghost predicate DistinctUids(pods: seq<Pod>) {
    forall i, j :: 0 <= i < j < |pods| ==> pods[i].uid != pods[j].uid
  }

  lemma {:induction false} RemoveAllKeys(base: View, pods: seq<Pod>, u: string)
    ensures u in RemoveAll(base, pods) <==> u in base && forall i :: 0 <= i < |pods| ==> pods[i].uid != u
    ensures u in RemoveAll(base, pods) ==> RemoveAll(base, pods)[u] == base[u]
  {
    if pods != [] {
      var init := pods[..|pods| - 1];
      RemoveAllKeys(base, init, u);
      assert forall i :: 0 <= i < |init| ==> pods[i] == init[i];
    }
  }

  lemma {:induction false} AddAllKeys(base: View, pods: seq<Pod>, u: string)
    ensures u in AddAll(base, pods) <==> u in base || exists i :: 0 <= i < |pods| && pods[i].uid == u
    ensures (forall i :: 0 <= i < |pods| ==> pods[i].uid != u) && u in base ==> AddAll(base, pods)[u] == base[u]
    ensures DistinctUids(pods) ==> forall i :: 0 <= i < |pods| && pods[i].uid == u ==> AddAll(base, pods)[u] == pods[i]
  {
    if pods != [] {
      var init := pods[..|pods| - 1];
      AddAllKeys(base, init, u);
      assert forall i :: 0 <= i < |init| ==> pods[i] == init[i];
      if pods[|pods| - 1].uid != u && u in AddAll(base, pods) && u !in base {
        assert u in AddAll(base, init);
      }
    }
  }

  /** Withdrawing succeeds exactly for distinct pods the cache has. */
  lemma {:induction false} RemovableIff(base: View, pods: seq<Pod>)
    ensures Removable(base, pods) <==> DistinctUids(pods) && forall i :: 0 <= i < |pods| ==> pods[i].uid in base
  {
    if pods != [] {
      var init, last := pods[..|pods| - 1], pods[|pods| - 1];
      RemovableIff(base, init);
      RemoveAllKeys(base, init, last.uid);
      assert forall i :: 0 <= i < |init| ==> init[i] == pods[i];
    }
  }

  /** Adding succeeds exactly for distinct pods the cache does not have. */
  lemma {:induction false} AddableIff(base: View, pods: seq<Pod>)
    ensures Addable(base, pods) <==> DistinctUids(pods) && forall i :: 0 <= i < |pods| ==> pods[i].uid !in base
  {
    if pods != [] {
      var init, last := pods[..|pods| - 1], pods[|pods| - 1];
      AddableIff(base, init);
      AddAllKeys(base, init, last.uid);
      assert forall i :: 0 <= i < |init| ==> init[i] == pods[i];
    }
  }

  /** After withdrawing, the same pods can be put back, and that restores the cache exactly
      when it held those very pods. */
  lemma PutBack(base: View, pods: seq<Pod>)
    requires Removable(base, pods)
    ensures Addable(RemoveAll(base, pods), pods)
    ensures AddAll(RemoveAll(base, pods), pods) == base <==> Holds(base, pods)
  {
    RemovableIff(base, pods);
    AddableIff(RemoveAll(base, pods), pods);
    forall i | 0 <= i < |pods| ensures pods[i].uid !in RemoveAll(base, pods) {
      RemoveAllKeys(base, pods, pods[i].uid);
    }
    var back := AddAll(RemoveAll(base, pods), pods);
    forall u ensures u in back <==> u in base
      ensures u in back && Holds(base, pods) ==> back[u] == base[u]
    {
      AddAllKeys(RemoveAll(base, pods), pods, u);
      RemoveAllKeys(base, pods, u);
    }
    if back == base {
      forall i | 0 <= i < |pods| ensures base[pods[i].uid] == pods[i] {
        AddAllKeys(RemoveAll(base, pods), pods, pods[i].uid);
      }
    }
  }

  /** The withdrawal stops at pod `k`, the first that is not there. */
  ghost predicate StuckAt(base: View, pods: seq<Pod>, k: nat) {
    k < |pods| && Removable(base, pods[..k]) && pods[k].uid !in RemoveAll(base, pods[..k])
  }

  ghost function StuckIndex(base: View, pods: seq<Pod>): (k: nat)
    requires !Removable(base, pods)
    ensures StuckAt(base, pods, k)
  {
    var init := pods[..|pods| - 1];
    if Removable(base, init) then |init|
    else
      var k := StuckIndex(base, init);
      assert init[..k] == pods[..k];
      k
  }

  /** It is the only such place. */
  lemma StuckOnce(base: View, pods: seq<Pod>, i: nat, j: nat)
    requires StuckAt(base, pods, i) && StuckAt(base, pods, j)
    ensures i == j
  {
    if i < j { NotPast(base, pods, i, j); }
    if j < i { NotPast(base, pods, j, i); }
  }

  lemma NotPast(base: View, pods: seq<Pod>, i: nat, j: nat)
    requires StuckAt(base, pods, i) && i < j < |pods|
    ensures !Removable(base, pods[..j])
  {
    assert pods[..j][..i] == pods[..i];
    if Removable(base, pods[..j]) {
      RemovablePrefix(base, pods[..j], i);
    }
  }

  /** What a run over `occupying` leaves in the cache: everything put back, or, after a failed
      withdrawal, everything but the pods before the one that failed. */
  ghost function Left(base: View, occupying: seq<Pod>): (r: View) {
    if Removable(base, occupying) then AddAll(RemoveAll(base, occupying), occupying)
    else RemoveAll(base, occupying[..StuckIndex(base, occupying)])
  }

  lemma LeftIsBase(base: View, occupying: seq<Pod>)
    ensures Left(base, occupying) == base <==> RollsBack(base, occupying)
  {
    if Removable(base, occupying) {
      PutBack(base, occupying);
    } else {
      FailedWithdrawal(base, occupying, StuckIndex(base, occupying));
    }
  }

  /** Exactly when a run over `replacing` leaves the cache as it found it: the cache held those
      very pods, or the withdrawal failed before it removed anything. */
  ghost predicate RollsBack(cache: View, occupying: seq<Pod>) {
    if Removable(cache, occupying) then Holds(cache, occupying) else occupying[0].uid !in cache
  }

  // ---------------------------------------------------------------- the scheduler

  ghost predicate ProperNodes(nodes: seq<Node>) {
    UniqueNames(nodes) && forall i :: 0 <= i < |nodes| ==> nodes[i].name != ""
  }

  /** `pods` minus their unassigned members, seeded into an empty cache. */
  ghost function Seed(pods: seq<Pod>): (r: View) { AddAll(map[], Filter(pods, IsAssigned())) }

  class Scheduler {
    const nodes: seq<Node>
    const filter: Plugins
    var cache: View
    var view: View

    /** The plugins see exactly what the cache holds. */
    ghost predicate Valid()
      reads this
    {
      view == cache && ProperNodes(nodes)
    }

    constructor (nodes: seq<Node>, filter: Plugins)
      ensures this.nodes == nodes && this.filter == filter && cache == map[] && view == map[]
    {
      this.nodes, this.filter := nodes, filter;
      cache, view := map[], map[];
    }

    /** The cache keys pods by UID and refuses a second one. */
    method AddPod(p: Pod) returns (ok: bool)
      modifies this`cache
      ensures ok == (p.uid !in old(cache))
      ensures cache == if ok then old(cache)[p.uid := p] else old(cache)
    {
      if p.uid in cache { return false; }
      cache := cache[p.uid := p];
      return true;
    }

    method RemovePod(p: Pod) returns (ok: bool)
      modifies this`cache
      ensures ok == (p.uid in old(cache))
      ensures cache == if ok then old(cache) - {p.uid} else old(cache)
    {
      if p.uid !in cache { return false; }
      cache := cache - {p.uid};
      return true;
    }

    method UpdateSnapshot()
      modifies this`view
      ensures view == cache
    {
      view := cache;
    }

    /** sched.New: fails exactly when two assigned pods share a UID. */
    static method New(s: Snapshot, filter: Plugins) returns (r: Result<Scheduler>)
      ensures r.Ok? <==> Addable(map[], Filter(s.pods, IsAssigned()))
      ensures r.Ok? ==> fresh(r.value) && r.value.nodes == s.nodes && r.value.filter == filter
      ensures r.Ok? ==> r.value.view == r.value.cache == Seed(s.pods)
    {
      var sc := new Scheduler(s.nodes, filter);
      var occupying := AssignedPods(s.pods);
      var ok := sc.AddEach(occupying);
      if !ok { return Err; }
      sc.UpdateSnapshot();
      return Ok(sc);
    }

    /** Adds pods until one is refused. */
    method AddEach(pods: seq<Pod>) returns (ok: bool)
      modifies this`cache
      ensures ok <==> Addable(old(cache), pods)
      ensures ok ==> cache == AddAll(old(cache), pods)
    {
      for i := 0 to |pods|
        invariant Addable(old(cache), pods[..i]) && cache == AddAll(old(cache), pods[..i])
      {
        assert pods[..i + 1][..i] == pods[..i];
        var added := AddPod(pods[i]);
        if !added {
          if Addable(old(cache), pods) { AddablePrefix(old(cache), pods, i); }
          return false;
        }
      }
      assert pods[..|pods|] == pods;
      return true;
    }

    static method AssignedPods(pods: seq<Pod>) returns (out: seq<Pod>)
      ensures out == Filter(pods, IsAssigned())
    {
      out := [];
      for i := 0 to |pods|
        invariant out == Filter(pods[..i], IsAssigned())
      {
        FilterStep(pods, i, IsAssigned());
        if pods[i].spec.nodeName == "" { continue; }
        if pods[i].phase == Succeeded || pods[i].phase == Failed { continue; }
        out := out + [pods[i]];
      }
      assert pods[..|pods|] == pods;
    }

    /** One answer per node, in order. */
    method Fits(pod: Pod, key: string) returns (r: Result<seq<Fit>>)
      ensures r.Ok? <==> pod.spec.nodeName == "" && filter.admits(view, pod)
      ensures r.Ok? ==> AreFits(filter, nodes, key, view, pod, r.value)
    {
      if pod.spec.nodeName != "" { return Err; }
      if !filter.admits(view, pod) { return Err; }
      var out: seq<Fit> := [];
      for i := 0 to |nodes|
        invariant |out| == i
        invariant forall j :: 0 <= j < i ==> IsFit(filter, nodes[j], key, view, pod, out[j])
      {
        var of := Domain.Of(nodes[i], key);
        var f := Fit(nodes[i].name, if of.Some? then of.value else "", true, "");
        if !filter.accepts(view, pod, nodes[i]) {
          f := f.(ok := false, reason := filter.message(view, pod, nodes[i]));
        }
        out := out + [f];
      }
      return Ok(out);
    }

    method Place(pod: Pod, replicas: int, key: string) returns (r: Result<Placement>)
      requires Valid()
      modifies this
      ensures Valid() && cache == old(cache) && view == old(view)
      ensures var job := Job(filter, nodes, key, pod, old(view));
        && (r.Ok? <==> replicas > 0 && pod.spec.nodeName == "" && job.Clean(replicas))
        && (r.Ok? ==> r.value == job.Outcome(replicas))
    {
      if replicas <= 0 { return Err; }
      if pod.spec.nodeName != "" { return Err; }
      var out, simulated, ok := PlaceAll(pod, replicas, key);
      var restored := Withdraw(simulated, old(cache));
      if !restored { return Err; }
      if !ok { return Err; }
      return Ok(out);
    }

    /** The placing loop: every replica placed is visible to the next. */
    method PlaceAll(pod: Pod, replicas: nat, key: string)
      returns (out: Placement, simulated: seq<Pod>, ok: bool)
      requires Valid() && pod.spec.nodeName == ""
      modifies this
      ensures Valid()
      ensures Addable(old(cache), simulated) && cache == AddAll(old(cache), simulated)
      ensures var job := Job(filter, nodes, key, pod, old(view));
        && (ok <==> job.Clean(replicas))
        && (ok ==> out == job.Outcome(replicas))
    {
      ghost var job := Job(filter, nodes, key, pod, view);
      out, simulated := Placement([], map[], 0, ""), [];
      for i := 0 to replicas
        invariant Valid() && view == job.ViewAt(i)
        invariant job.Clean(i) && out == job.Outcome(i)
        invariant Addable(old(cache), simulated) && cache == AddAll(old(cache), simulated)
      {
        out, simulated, ok := PlaceOne(job, i, pod, key, out, simulated, old(cache));
        if !ok { return; }
      }
      ok := true;
    }

    method PlaceOne(ghost job: Job, i: nat, pod: Pod, key: string, out0: Placement, simulated0: seq<Pod>,
                    ghost base: View)
      returns (out: Placement, simulated: seq<Pod>, ok: bool)
      requires Valid() && job.filter == filter && job.nodes == nodes && job.key == key && job.pod == pod
      requires view == job.ViewAt(i) && out0 == job.Outcome(i)
      requires Addable(base, simulated0) && cache == AddAll(base, simulated0)
      modifies this
      ensures Valid()
      ensures Addable(base, simulated) && cache == AddAll(base, simulated)
      ensures ok <==> !job.FailsAt(i)
      ensures ok ==> view == job.ViewAt(i + 1) && out == job.Outcome(i + 1)
    {
      out, simulated := out0, simulated0;
      var candidate := Sim(pod, i);
      var fits := Fits(candidate, key);
      if fits.Err? { return out, simulated, false; }
      var chosen, reason := FirstFit(fits.value, job, i);
      if chosen == "" {
        out := out.(unschedulable := out.unschedulable + 1, reason := if out.reason == "" then reason else out.reason);
        return out, simulated, true;
      }
      var bound := candidate.(spec := candidate.spec.(nodeName := chosen), phase := Running);
      simulated, ok := Commit(bound, simulated, base);
      if !ok { return; }
      var d := NodeDomain(chosen, key);
      out := out.(nodes := out.nodes + [chosen]);
      if d.Some? { out := out.(domains := Tally(out.domains, d.value)); }
    }

    /** Writes one placed replica into the cache and shows it to the plugins. */
    method Commit(bound: Pod, simulated0: seq<Pod>, ghost base: View) returns (simulated: seq<Pod>, ok: bool)
      requires Valid() && Addable(base, simulated0) && cache == AddAll(base, simulated0)
      modifies this
      ensures Valid() && Addable(base, simulated) && cache == AddAll(base, simulated)
      ensures ok <==> bound.uid !in old(cache)
      ensures cache == if ok then old(cache)[bound.uid := bound] else old(cache)
    {
      var added := AddPod(bound);
      if !added { return simulated0, false; }
      AddableStep(base, simulated0, bound);
      UpdateSnapshot();
      return simulated0 + [bound], true;
    }

    /** domain.Of on the node of that name. */
    method NodeDomain(name: string, key: string) returns (d: Option<string>)
      requires ProperNodes(nodes)
      ensures d == if Domain.DomainOfName(nodes, key, name) == "" then None
                   else Some(Domain.DomainOfName(nodes, key, name))
    {
      d := None;
      ghost var hit := false;
      for i := 0 to |nodes|
        invariant !hit ==> d == None && forall j :: 0 <= j < i ==> nodes[j].name != name
        invariant hit ==> exists j :: 0 <= j < i && nodes[j].name == name && d == Domain.Of(nodes[j], key)
      {
        if nodes[i].name == name { d, hit := Domain.Of(nodes[i], key), true; }
      }
      if hit {
        ghost var j :| 0 <= j < |nodes| && nodes[j].name == name && d == Domain.Of(nodes[j], key);
        Domain.DomainOfNameHit(nodes, key, j);
        Domain.OfNeverEmpty(nodes[j], key);
      } else {
        Domain.DomainOfNameMiss(nodes, key, name);
      }
    }

    /** The first accepted node, or "" and the first message. */
    static method FirstFit(fits: seq<Fit>, ghost job: Job, ghost i: nat) returns (node: string, reason: string)
      requires AreFits(job.filter, job.nodes, job.key, job.ViewAt(i), Sim(job.pod, i), fits)
      requires ProperNodes(job.nodes)
      ensures node == "" <==> job.ChoiceAt(i).None?
      ensures node != "" ==> job.ChoiceAt(i) == Some(node)
      ensures node == "" ==> reason == FirstMessage(job.filter, job.nodes, job.ViewAt(i), Sim(job.pod, i))
    {
      ghost var v, c := job.ViewAt(i), Sim(job.pod, i);
      reason := "";
      for k := 0 to |fits|
        invariant FirstNode(job.filter, job.nodes, v, c) == FirstNode(job.filter, job.nodes[k..], v, c)
        invariant reason != "" ==> reason == FirstMessage(job.filter, job.nodes, v, c)
        invariant reason == "" ==>
          FirstMessage(job.filter, job.nodes, v, c) == FirstMessage(job.filter, job.nodes[k..], v, c)
      {
        assert IsFit(job.filter, job.nodes[k], job.key, v, c, fits[k]);
        assert job.nodes[k..][0] == job.nodes[k] && job.nodes[k..][1..] == job.nodes[k + 1..];
        if fits[k].ok { return fits[k].node, ""; }
        if reason == "" { reason := fits[k].reason; }
      }
      if reason == "" { reason := NO_NODE; }
      return "", reason;
    }

    /** Removes the simulated pods, last placed first. */
    method Withdraw(pods: seq<Pod>, ghost base: View) returns (ok: bool)
      requires Valid() && Addable(base, pods) && cache == AddAll(base, pods)
      modifies this
      ensures ok && Valid() && cache == base
    {
      var i := |pods|;
      assert pods[..i] == pods;
      while i > 0
        invariant 0 <= i <= |pods| && cache == AddAll(base, pods[..i])
        invariant i == |pods| ==> view == cache
      {
        i := i - 1;
        UndoStep(base, pods, i);
        var removed := RemovePod(pods[i]);
        if !removed { return false; }
      }
      if |pods| == 0 { return true; }
      UpdateSnapshot();
      return true;
    }

    /** Takes the assigned members of `pods` out of the view. A failure half-way leaves the
        ones already removed out of the cache. */
    method WithdrawExisting(pods: seq<Pod>) returns (r: Result<seq<Pod>>)
      requires Valid()
      modifies this
      ensures var occupying := Filter(pods, IsAssigned());
        && (r.Ok? <==> Removable(old(cache), occupying))
        && (r.Ok? ==> r.value == occupying && cache == view == RemoveAll(old(cache), occupying))
        && (r.Err? ==> view == old(view) && cache == Left(old(cache), occupying))
    {
      var occupying := AssignedPods(pods);
      if |occupying| == 0 { return Ok([]); }
      var ok := RemoveEach(occupying);
      if !ok { return Err; }
      UpdateSnapshot();
      return Ok(occupying);
    }

    /** Removes pods until one is missing. */
    method RemoveEach(pods: seq<Pod>) returns (ok: bool)
      modifies this`cache
      ensures ok <==> Removable(old(cache), pods)
      ensures ok ==> cache == RemoveAll(old(cache), pods)
      ensures !ok ==> cache == RemoveAll(old(cache), pods[..StuckIndex(old(cache), pods)])
    {
      for i := 0 to |pods|
        invariant Removable(old(cache), pods[..i]) && cache == RemoveAll(old(cache), pods[..i])
      {
        assert pods[..i + 1][..i] == pods[..i];
        var removed := RemovePod(pods[i]);
        if !removed {
          assert StuckAt(old(cache), pods, i);
          if Removable(old(cache), pods) { RemovablePrefix(old(cache), pods, i); }
          StuckOnce(old(cache), pods, i, StuckIndex(old(cache), pods));
          return false;
        }
      }
      assert pods[..|pods|] == pods;
      return true;
    }

    /** WithdrawExisting's inverse. */
    method Reinstate(pods: seq<Pod>) returns (ok: bool)
      requires Valid() && Addable(cache, pods)
      modifies this
      ensures ok && Valid() && cache == AddAll(old(cache), pods)
    {
      if |pods| == 0 { return true; }
      ok := AddEach(pods);
      if !ok { return; }
      UpdateSnapshot();
    }

    /** The steady state after a rollout: the old pods out, the replicas placed, everything put
        back. The cache ends as it began exactly under RollsBack; after a failed withdrawal the
        view is as it was, and no longer what the cache holds. */
    method PlaceReplacing(pod: Pod, replicas: int, key: string, replacing: seq<Pod>) returns (r: Result<Placement>)
      requires Valid()
      modifies this
      ensures cache == Left(old(cache), Filter(replacing, IsAssigned()))
      ensures view == if Removable(old(cache), Filter(replacing, IsAssigned())) then cache else old(view)
      ensures cache == old(cache) <==> RollsBack(old(cache), Filter(replacing, IsAssigned()))
      ensures var occupying := Filter(replacing, IsAssigned());
        var job := Job(filter, nodes, key, pod, RemoveAll(old(cache), occupying));
        && (r.Ok? <==>
          Removable(old(cache), occupying) && replicas > 0 && pod.spec.nodeName == "" && job.Clean(replicas))
        && (r.Ok? ==> r.value == job.Outcome(replicas))
    {
      LeftIsBase(cache, Filter(replacing, IsAssigned()));
      var withdrawn := WithdrawExisting(replacing);
      if withdrawn.Err? { return Err; }
      r := Place(pod, replicas, key);
      PutBack(old(cache), withdrawn.value);
      var ok := Reinstate(withdrawn.value);
      if !ok && r.Ok? { return Err; }
    }

    /** The per-node verdicts with `replacing` out of the view, everything put back after. */
    method FitsReplacing(pod: Pod, key: string, replacing: seq<Pod>) returns (r: Result<seq<Fit>>)
      requires Valid()
      modifies this
      ensures cache == Left(old(cache), Filter(replacing, IsAssigned()))
      ensures view == if Removable(old(cache), Filter(replacing, IsAssigned())) then cache else old(view)
      ensures cache == old(cache) <==> RollsBack(old(cache), Filter(replacing, IsAssigned()))
      ensures var occupying := Filter(replacing, IsAssigned());
        var without := RemoveAll(old(cache), occupying);
        && (r.Ok? <==> Removable(old(cache), occupying) && pod.spec.nodeName == "" && filter.admits(without, pod))
        && (r.Ok? ==> AreFits(filter, nodes, key, without, pod, r.value))
    {
      LeftIsBase(cache, Filter(replacing, IsAssigned()));
      var withdrawn := WithdrawExisting(replacing);
      if withdrawn.Err? { return Err; }
      r := Fits(pod, key);
      PutBack(old(cache), withdrawn.value);
      var ok := Reinstate(withdrawn.value);
      if !ok && r.Ok? { return Err; }
    }
  }

  lemma AddableStep(base: View, pods: seq<Pod>, p: Pod)
    requires Addable(base, pods) && p.uid !in AddAll(base, pods)
    ensures Addable(base, pods + [p]) && AddAll(base, pods + [p]) == AddAll(base, pods)[p.uid := p]
  {
    assert (pods + [p])[..|pods|] == pods;
  }

  lemma UndoStep(base: View, pods: seq<Pod>, i: nat)
    requires Addable(base, pods) && i < |pods|
    ensures pods[i].uid in AddAll(base, pods[..i + 1])
    ensures AddAll(base, pods[..i + 1]) - {pods[i].uid} == AddAll(base, pods[..i])
  {
    AddablePrefix(base, pods, i);
    assert pods[..i + 1][..i] == pods[..i];
  }

  lemma FailedWithdrawal(base: View, pods: seq<Pod>, k: nat)
    requires StuckAt(base, pods, k)
    ensures !Removable(base, pods)
    ensures RemoveAll(base, pods[..k]) == base <==> RollsBack(base, pods)
  {
    if Removable(base, pods) { RemovablePrefix(base, pods, k); }
    if k > 0 {
      var gone := pods[..k];
      RemovableIff(base, gone);
      assert gone[0] == pods[0] && gone[0].uid in base;
      RemoveAllKeys(base, gone, pods[0].uid);
    } else {
      assert pods[..0] == [];
    }
  }

  ghost predicate IsFit(f: Plugins, n: Node, key: string, view: View, pod: Pod, fit: Fit) {
    && fit.node == n.name
    && fit.domain == (match Domain.Of(n, key) case Some(d) => d case None => "")
    && fit.ok == f.accepts(view, pod, n)
    && fit.reason == if fit.ok then "" else f.message(view, pod, n)
  }

  ghost predicate AreFits(f: Plugins, nodes: seq<Node>, key: string, view: View, pod: Pod, fits: seq<Fit>) {
    |fits| == |nodes| && forall j :: 0 <= j < |fits| ==> IsFit(f, nodes[j], key, view, pod, fits[j])
  }
}
