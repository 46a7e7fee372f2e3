/** What the two budget computations say, read off the budgets' fields and the pods they cover. */
module PdbFacts {
  import opened Basics
  import opened Cluster
  import opened PdbCheck

  // ---------------------------------------------------------------- the fields

  /** What a field comes to among `n` pods: a number as it is, a percentage rounded up. */
  ghost predicate ComesTo(field: Option<Amount>, n: int, v: int) {
    match field
    case Some(Count(m)) => v == m
    case Some(Percent(p)) => 100 * (v - 1) < p * n <= 100 * v
    case _ => false
  }

  ghost predicate Usable(field: Option<Amount>) { field.Some? && !field.value.Malformed? }

  lemma OneValue(field: Option<Amount>, n: int, v: int)
    ensures ComesTo(field, n, v) <==>
      field.Some? && Scaled(field.value, n) == Ok(v)
    ensures Usable(field) <==> exists w :: ComesTo(field, n, w)
  {
    if Usable(field) {
      var w := Scaled(field.value, n).value;
      assert ComesTo(field, n, w);
    }
  }

  /** A budget forbids every eviction when it asks for as many pods as there are, or lets none be
      away; a malformed field counts as unset. */
  lemma ForbidsMeans(b: Budget, n: int)
    requires n >= 1
    ensures Forbids(b, n) <==>
      (exists v :: ComesTo(b.minAvailable, n, v) && v >= n) || ComesTo(b.maxUnavailable, n, 0)
  {
    forall v {
      OneValue(b.minAvailable, n, v);
    }
    if b.minAvailable.Some? && Scaled(b.minAvailable.value, n).Ok? {
      OneValue(b.minAvailable, n, Scaled(b.minAvailable.value, n).value);
    }
    OneValue(b.maxUnavailable, n, 0);
  }

  /** What the engine hears from one budget: nothing from another namespace or from one that does not
      select the pod; an unparseable selector is unreadable; minAvailable, when set, decides, a
      malformed one asking for none; otherwise maxUnavailable, unless malformed or negative. */
  lemma DemandMeans(b: Budget, pod: Pod, n: int)
    ensures DemandOf(b, pod, n) == Unreadable <==> b.namespace == pod.namespace && b.selector.Unparseable?
    ensures forall v :: DemandOf(b, pod, n) == Keep(v) <==>
      && b.namespace == pod.namespace && b.selector.Matches(pod.labels)
      && if b.minAvailable.Some? then ComesTo(b.minAvailable, n, v) || (b.minAvailable.value.Malformed? && v == 0)
         else exists u :: u >= 0 && ComesTo(b.maxUnavailable, n, u) && v == if u <= n then n - u else 0
  {
    forall v
      ensures DemandOf(b, pod, n) == Keep(v) <==>
        && b.namespace == pod.namespace && b.selector.Matches(pod.labels)
        && if b.minAvailable.Some? then ComesTo(b.minAvailable, n, v) || (b.minAvailable.value.Malformed? && v == 0)
           else exists u :: u >= 0 && ComesTo(b.maxUnavailable, n, u) && v == if u <= n then n - u else 0
    {
      OneDemand(b, pod, n, v);
    }
  }

  lemma OneDemand(b: Budget, pod: Pod, n: int, v: int)
    ensures DemandOf(b, pod, n) == Keep(v) <==>
      && b.namespace == pod.namespace && b.selector.Matches(pod.labels)
      && if b.minAvailable.Some? then ComesTo(b.minAvailable, n, v) || (b.minAvailable.value.Malformed? && v == 0)
         else exists u :: u >= 0 && ComesTo(b.maxUnavailable, n, u) && v == if u <= n then n - u else 0
  {
    OneValue(b.minAvailable, n, v);
    if b.maxUnavailable.Some? && Scaled(b.maxUnavailable.value, n).Ok? {
      OneValue(b.maxUnavailable, n, Scaled(b.maxUnavailable.value, n).value);
    }
    forall u { OneValue(b.maxUnavailable, n, u); }
  }

  /** The engine listens to the first budget that has something to say. */
  lemma {:induction false} FirstSpeaks(budgets: seq<Budget>, pod: Pod, n: int)
    ensures var heard := DesiredAvailable(budgets, pod, n);
      && (heard == Silent <==> forall i :: 0 <= i < |budgets| ==> DemandOf(budgets[i], pod, n) == Silent)
      && (heard != Silent ==> exists i :: Speaks(budgets, pod, n, i) && heard == DemandOf(budgets[i], pod, n))
  {
    if budgets != [] {
      var rest := budgets[1..];
      FirstSpeaks(rest, pod, n);
      assert forall i :: 0 <= i < |rest| ==> rest[i] == budgets[i + 1];
      if DemandOf(budgets[0], pod, n) != Silent {
        assert Speaks(budgets, pod, n, 0);
      } else if i :| Speaks(rest, pod, n, i) && DesiredAvailable(rest, pod, n) == DemandOf(rest[i], pod, n) {
        assert Speaks(budgets, pod, n, i + 1);
      }
      if forall i :: 0 <= i < |budgets| ==> DemandOf(budgets[i], pod, n) == Silent {
        forall i | 0 <= i < |rest| ensures DemandOf(rest[i], pod, n) == Silent { assert rest[i] == budgets[i + 1]; }
      }
    }
  }

  ghost predicate Speaks(budgets: seq<Budget>, pod: Pod, n: int, i: int) {
    0 <= i < |budgets| && DemandOf(budgets[i], pod, n) != Silent
    && forall j :: 0 <= j < i ==> DemandOf(budgets[j], pod, n) == Silent
  }

  // ---------------------------------------------------------------- who is covered

  /** The pods a budget counts: of its namespace, selected, not on the way out, and not waiting or
      finished. */
  ghost predicate Counted(b: Budget, p: Pod) {
    && p.namespace == b.namespace && b.selector.Matches(p.labels)
    && !p.deleting && p.phase != Pending && p.phase != Succeeded && p.phase != Failed
  }

  ghost predicate NamesApart(pods: seq<Pod>) {
    forall i, j :: 0 <= i < j < |pods| ==> pods[i].Key() != pods[j].Key()
  }

  lemma {:induction false} CoveringExact(b: Budget, pods: seq<Pod>, p: Pod)
    requires NamesApart(pods) && p in pods
    ensures Covering(b, pods, p.Key()) == if Counted(b, p) then 1 else 0
  {
    var init, last := pods[..|pods| - 1], pods[|pods| - 1];
    assert pods == init + [last];
    if p == last {
      CoveringNone(b, init, p.Key());
    } else {
      CoveringExact(b, init, p);
      var i :| 0 <= i < |init| && init[i] == p;
      assert pods[i] == p && pods[|pods| - 1] == last;
    }
  }

  lemma {:induction false} CoveringNone(b: Budget, pods: seq<Pod>, k: string)
    requires forall i :: 0 <= i < |pods| ==> pods[i].Key() != k
    ensures Covering(b, pods, k) == 0
  {
    if pods != [] { CoveringNone(b, pods[..|pods| - 1], k); }
  }

  /** A pod is selected more than once exactly when two budgets cover it. */
  lemma {:induction false} SelectionsExact(budgets: seq<Budget>, pods: seq<Pod>, p: Pod)
    requires NamesApart(pods) && p in pods
    ensures Selections(budgets, pods, p.Key()) > 0 <==> exists j :: 0 <= j < |budgets| && Counted(budgets[j], p)
    ensures Selections(budgets, pods, p.Key()) > 1 <==>
      exists j, k :: 0 <= j < k < |budgets| && Counted(budgets[j], p) && Counted(budgets[k], p)
  {
    if budgets != [] {
      var init, last := budgets[..|budgets| - 1], budgets[|budgets| - 1];
      SelectionsExact(init, pods, p);
      CoveringExact(last, pods, p);
      assert forall j :: 0 <= j < |init| ==> init[j] == budgets[j];
      if j :| 0 <= j < |init| && Counted(init[j], p) { assert Counted(budgets[j], p); }
      if j, k :| 0 <= j < k < |init| && Counted(init[j], p) && Counted(init[k], p) {
        assert Counted(budgets[j], p) && Counted(budgets[k], p);
      }
      if j :| 0 <= j < |budgets| && Counted(budgets[j], p) && j < |init| { assert Counted(init[j], p); }
      if j, k :| 0 <= j < k < |budgets| && Counted(budgets[j], p) && Counted(budgets[k], p) {
        assert Counted(init[j], p);
        if k < |init| { assert Counted(init[k], p); }
      }
    }
  }

  // ---------------------------------------------------------------- the block

  function InScope(b: Budget): (f: Pod -> bool) {
    (p: Pod) =>
      && p.namespace == b.namespace && b.selector.Matches(p.labels)
      && !p.deleting && (p.phase == Running || p.phase == PhaseUnknown)
  }

  /** One of the budget's pods is another's as well. */
  ghost predicate Shared(budgets: seq<Budget>, pods: seq<Pod>, k: nat)
    requires k < |budgets|
  {
    exists p :: p in pods && Counted(budgets[k], p) && CountedElsewhere(budgets, k, p)
  }

  /** Another budget than the `k`th counts the pod. */
  ghost predicate CountedElsewhere(budgets: seq<Budget>, k: nat, p: Pod) {
    exists j :: 0 <= j < |budgets| && j != k && Counted(budgets[j], p)
  }

  lemma MatchedMeans(budgets: seq<Budget>, pods: seq<Pod>, k: nat)
    requires k < |budgets| && UniqueKeys(budgets)
    ensures Matched(budgets, pods, budgets[k].Key()) == Filter(pods, InScope(budgets[k]))
    ensures forall p :: p in Matched(budgets, pods, budgets[k].Key()) <==> p in pods && Counted(budgets[k], p)
  {
    MatchedUnique(budgets, pods, k);
    forall p | p in pods ensures CoveredBy(budgets[k])(p) == InScope(budgets[k])(p) {}
    FilterAgree(pods, CoveredBy(budgets[k]), InScope(budgets[k]));
    FilterMembers(pods, InScope(budgets[k]));
  }

  lemma SharedIff(budgets: seq<Budget>, pods: seq<Pod>, k: nat, p: Pod)
    requires k < |budgets| && NamesApart(pods) && p in pods && Counted(budgets[k], p)
    ensures Selections(budgets, pods, p.Key()) > 1 <==> CountedElsewhere(budgets, k, p)
  {
    SelectionsExact(budgets, pods, p);
    if j :| 0 <= j < |budgets| && j != k && Counted(budgets[j], p) {
      assert Counted(budgets[if j < k then j else k], p) && Counted(budgets[if j < k then k else j], p);
    }
    if a, b :| 0 <= a < b < |budgets| && Counted(budgets[a], p) && Counted(budgets[b], p) {
      assert Counted(budgets[if a == k then b else a], p);
    }
  }

  lemma OverlapsIff(budgets: seq<Budget>, pods: seq<Pod>, k: nat, matched: seq<Pod>)
    requires k < |budgets| && NamesApart(pods)
    requires forall p :: p in matched <==> p in pods && Counted(budgets[k], p)
    ensures Overlaps(budgets, pods, matched) <==> Shared(budgets, pods, k)
  {
    forall p | p in matched ensures Selections(budgets, pods, p.Key()) > 1 <==> CountedElsewhere(budgets, k, p) {
      SharedIff(budgets, pods, k, p);
    }
    if p :| p in pods && Counted(budgets[k], p) && CountedElsewhere(budgets, k, p) {
      var i :| 0 <= i < |matched| && matched[i] == p;
    }
  }

  lemma OverlapsMeans(budgets: seq<Budget>, pods: seq<Pod>, k: nat)
    requires k < |budgets| && UniqueKeys(budgets) && NamesApart(pods)
    ensures Overlaps(budgets, pods, Matched(budgets, pods, budgets[k].Key())) <==> Shared(budgets, pods, k)
  {
    MatchedMeans(budgets, pods, k);
    OverlapsIff(budgets, pods, k, Matched(budgets, pods, budgets[k].Key()));
  }

  /** The block of a budget, in order of precedence: it covers nothing; it shares a pod; its status is
      behind; its fields forbid every eviction of what it covers; none of these. */
  lemma BlockMeans(budgets: seq<Budget>, pods: seq<Pod>, k: nat)
    requires k < |budgets| && UniqueKeys(budgets) && NamesApart(pods)
    ensures var b := budgets[k];
      var n := |Filter(pods, InScope(b))|;
      BlockOf(budgets, pods, b) ==
        if n == 0 then NoPodsMatched
        else if Shared(budgets, pods, k) then MultiplePDBs
        else if b.generation != b.observedGeneration then StaleStatus
        else if (exists v :: ComesTo(b.minAvailable, n, v) && v >= n) || ComesTo(b.maxUnavailable, n, 0)
        then NeverSatisfiable
        else Unblocked
  {
    MatchedMeans(budgets, pods, k);
    OverlapsMeans(budgets, pods, k);
    var n := |Filter(pods, InScope(budgets[k]))|;
    if n >= 1 { ForbidsMeans(budgets[k], n); }
  }
}
