/** internal/pdbcheck: budgets that can never permit an eviction. */
module PdbCheck {
  import opened Basics
  import opened Cluster

  datatype Block = Unblocked | NeverSatisfiable | MultiplePDBs | NoPodsMatched | StaleStatus

  datatype Finding = Finding(budget: string, namespace: string, block: Block)

  // ---------------------------------------------------------------- amounts

  /** n/100 rounded up; Dafny's `/` rounds the negated dividend down. */
  function CeilPercent(n: int): (r: int)
    ensures 100 * (r - 1) < n <= 100 * r
  {
    -((-n) / 100)
  }

  /** GetScaledValueFromIntOrPercent with rounding up; Err for a string that is no percentage. */
  function Scaled(a: Amount, replicas: int): (r: Result<int>) {
    match a
    case Count(n) => Ok(n)
    case Percent(p) => Ok(CeilPercent(p * replicas))
    case Malformed => Err
  }

  function RequiredAvailable(min: Option<Amount>, replicas: int): (r: int) {
    match min
    case None => 0
    case Some(a) => match Scaled(a, replicas) case Ok(v) => v case Err => 0
  }

  /** -1 when the field is unset or does not parse. */
  function AllowedUnavailable(max: Option<Amount>, replicas: int): (r: int) {
    match max
    case None => -1
    case Some(a) => match Scaled(a, replicas) case Ok(v) => v case Err => -1
  }

  // ---------------------------------------------------------------- who a budget covers

  predicate Covers(b: Budget, pod: Pod) {
    pod.namespace == b.namespace && b.selector.Matches(pod.labels) && !pod.IgnoredByPDB()
  }

  function CoveredBy(b: Budget): (f: Pod -> bool) { (p: Pod) => Covers(b, p) }

  /** The pods recorded under one "namespace/name" key, budget by budget. */
  function Matched(budgets: seq<Budget>, pods: seq<Pod>, key: string): (r: seq<Pod>) {
    if budgets == [] then []
    else
      var b := budgets[|budgets| - 1];
      Matched(budgets[..|budgets| - 1], pods, key) + (if b.Key() == key then Filter(pods, CoveredBy(b)) else [])
  }

  /** How often one budget covers a pod of the given name. */
  function Covering(b: Budget, pods: seq<Pod>, podKey: string): (r: nat) {
    if pods == [] then 0
    else
      var p := pods[|pods| - 1];
      Covering(b, pods[..|pods| - 1], podKey) + (if p.Key() == podKey && Covers(b, p) then 1 else 0)
  }

  lemma CoveringAppend(b: Budget, pods: seq<Pod>, p: Pod, podKey: string)
    requires Covers(b, p)
    ensures Covering(b, pods + [p], podKey) == Covering(b, pods, podKey) + (if p.Key() == podKey then 1 else 0)
  {
    assert (pods + [p])[..|pods|] == pods;
  }

  /** How many (budget, pod) matches carry one pod name. */
  function Selections(budgets: seq<Budget>, pods: seq<Pod>, podKey: string): (r: nat) {
    if budgets == [] then 0
    else
      Selections(budgets[..|budgets| - 1], pods, podKey) + Covering(budgets[|budgets| - 1], pods, podKey)
  }

  predicate Overlaps(budgets: seq<Budget>, pods: seq<Pod>, matched: seq<Pod>) {
    exists i | 0 <= i < |matched| :: Selections(budgets, pods, matched[i].Key()) > 1
  }

  /** Whether the budget's own fields forbid every eviction among `total` pods. */
  predicate Forbids(b: Budget, total: int) {
    || (b.minAvailable.Some? && RequiredAvailable(b.minAvailable, total) >= total)
    || AllowedUnavailable(b.maxUnavailable, total) == 0
  }

  function BlockOf(budgets: seq<Budget>, pods: seq<Pod>, b: Budget): (r: Block) {
    var matched := Matched(budgets, pods, b.Key());
    if matched == [] then NoPodsMatched
    else if Overlaps(budgets, pods, matched) then MultiplePDBs
    else if b.generation != b.observedGeneration then StaleStatus
    else if Forbids(b, |matched|) then NeverSatisfiable
    else Unblocked
  }

  // ---------------------------------------------------------------- the analysis

  function Lookup<V>(m: map<string, V>, k: string, default: V): (r: V) { if k in m then m[k] else default }

  /** One finding per budget, in order, with the budget's name and its block. */
  ghost predicate IsReview(s: Snapshot, out: seq<Finding>) {
    && |out| == |s.budgets|
    && forall i :: 0 <= i < |out| ==>
         out[i] == Finding(s.budgets[i].name, s.budgets[i].namespace, BlockOf(s.budgets, s.pods, s.budgets[i]))
  }

  method Analyze(s: Snapshot) returns (out: seq<Finding>)
    ensures IsReview(s, out)
  {
    var matched, perPod := Count(s);
    out := [];
    for i := 0 to |s.budgets|
      invariant |out| == i
      invariant forall j :: 0 <= j < i ==>
        out[j] == Finding(s.budgets[j].name, s.budgets[j].namespace, BlockOf(s.budgets, s.pods, s.budgets[j]))
    {
      var b := s.budgets[i];
      var pods := Lookup(matched, b.Key(), []);
      assert pods == Matched(s.budgets, s.pods, b.Key());
      assert forall k :: Lookup(perPod, k, 0) == Selections(s.budgets, s.pods, k);
      var block := Judge(s, b, pods, perPod);
      out := out + [Finding(b.name, b.namespace, block)];
    }
  }

  /** The switch on one budget. */
  method Judge(s: Snapshot, b: Budget, pods: seq<Pod>, perPod: map<string, nat>) returns (block: Block)
    requires pods == Matched(s.budgets, s.pods, b.Key())
    requires forall k :: Lookup(perPod, k, 0) == Selections(s.budgets, s.pods, k)
    ensures block == BlockOf(s.budgets, s.pods, b)
  {
    var multiple := AnyPodHasMultiplePDBs(pods, perPod);
    if |pods| == 0 { return NoPodsMatched; }
    if multiple { return MultiplePDBs; }
    if b.generation != b.observedGeneration { return StaleStatus; }
    var total := |pods|;
    if b.minAvailable.Some? && RequiredAvailable(b.minAvailable, total) >= total { return NeverSatisfiable; }
    if AllowedUnavailable(b.maxUnavailable, total) == 0 { return NeverSatisfiable; }
    return Unblocked;
  }

  method AnyPodHasMultiplePDBs(pods: seq<Pod>, counts: map<string, nat>) returns (r: bool)
    ensures r <==> exists i :: 0 <= i < |pods| && Lookup(counts, pods[i].Key(), 0) > 1
  {
    for i := 0 to |pods|
      invariant forall j :: 0 <= j < i ==> Lookup(counts, pods[j].Key(), 0) <= 1
    {
      if Lookup(counts, pods[i].Key(), 0) > 1 { return true; }
    }
    return false;
  }

  /** The counting pass: pods by budget key, and selections by pod key. */
  method Count(s: Snapshot) returns (matched: map<string, seq<Pod>>, perPod: map<string, nat>)
    ensures forall k :: Lookup(matched, k, []) == Matched(s.budgets, s.pods, k)
    ensures forall k :: Lookup(perPod, k, 0) == Selections(s.budgets, s.pods, k)
  {
    matched, perPod := map[], map[];
    for i := 0 to |s.budgets|
      invariant forall k :: Lookup(matched, k, []) == Matched(s.budgets[..i], s.pods, k)
      invariant forall k :: Lookup(perPod, k, 0) == Selections(s.budgets[..i], s.pods, k)
    {
      assert s.budgets[..i + 1][..i] == s.budgets[..i];
      var b := s.budgets[i];
      if !b.selector.Unparseable? {
        matched, perPod := CountOne(b, s.pods, matched, perPod);
      } else {
        NoneCovered(b, s.pods);
      }
    }
    assert s.budgets[..|s.budgets|] == s.budgets;
  }

  lemma {:induction false} NoneCovered(b: Budget, pods: seq<Pod>)
    requires b.selector.Unparseable?
    ensures Filter(pods, CoveredBy(b)) == []
    ensures forall k :: Covering(b, pods, k) == 0
  {
    if pods != [] { NoneCovered(b, pods[..|pods| - 1]); }
  }

  function Extend(m: map<string, seq<Pod>>, k: string, pods: seq<Pod>): (r: map<string, seq<Pod>>) {
    if pods == [] then m else m[k := Lookup(m, k, []) + pods]
  }

  lemma ExtendStep(m: map<string, seq<Pod>>, k: string, before: seq<Pod>, pod: Pod)
    ensures Extend(m, k, before + [pod])
         == Extend(m, k, before)[k := Lookup(Extend(m, k, before), k, []) + [pod]]
  {
    assert Lookup(m, k, []) + (before + [pod]) == Lookup(m, k, []) + before + [pod];
    if before == [] { assert before + [pod] == [pod]; }
  }

  method CountOne(b: Budget, pods: seq<Pod>, matched0: map<string, seq<Pod>>, perPod0: map<string, nat>)
    returns (matched: map<string, seq<Pod>>, perPod: map<string, nat>)
    ensures matched == Extend(matched0, b.Key(), Filter(pods, CoveredBy(b)))
    ensures forall k :: Lookup(perPod, k, 0) == Lookup(perPod0, k, 0) + Covering(b, pods, k)
  {
    matched, perPod := matched0, perPod0;
    for i := 0 to |pods|
      invariant matched == Extend(matched0, b.Key(), Filter(pods[..i], CoveredBy(b)))
      invariant forall k :: Lookup(perPod, k, 0) == Lookup(perPod0, k, 0) + Covering(b, pods[..i], k)
    {
      assert pods[..i + 1][..i] == pods[..i];
      var pod := pods[i];
      if pod.namespace != b.namespace || !b.selector.Matches(pod.labels) { continue; }
      if pod.IgnoredByPDB() { continue; }
      ExtendStep(matched0, b.Key(), Filter(pods[..i], CoveredBy(b)), pod);
      matched := matched[b.Key() := Lookup(matched, b.Key(), []) + [pod]];
      perPod := perPod[pod.Key() := Lookup(perPod, pod.Key(), 0) + 1];
    }
    assert pods[..|pods|] == pods;
  }

  // ---------------------------------------------------------------- the engine's question

  /** What one budget says about a pod: nothing, a number to keep, or an unreadable selector. */
  datatype Demand = Silent | Keep(n: int) | Unreadable

  function DemandOf(b: Budget, pod: Pod, replicas: int): (r: Demand) {
    if b.namespace != pod.namespace then Silent
    else if b.selector.Unparseable? then Unreadable
    else if !b.selector.Matches(pod.labels) then Silent
    else if b.minAvailable.Some? then Keep(RequiredAvailable(b.minAvailable, replicas))
    else if b.maxUnavailable.Some? && AllowedUnavailable(b.maxUnavailable, replicas) >= 0 then
      var need := replicas - AllowedUnavailable(b.maxUnavailable, replicas);
      Keep(if need < 0 then 0 else need)
    else Silent
  }

  /** The first budget that is not silent answers. */
  function DesiredAvailable(budgets: seq<Budget>, pod: Pod, replicas: int): (r: Demand) {
    if budgets == [] then Silent
    else if DemandOf(budgets[0], pod, replicas) != Silent then DemandOf(budgets[0], pod, replicas)
    else DesiredAvailable(budgets[1..], pod, replicas)
  }

  predicate Parseable(budgets: seq<Budget>) {
    forall i | 0 <= i < |budgets| :: !budgets[i].selector.Unparseable?
  }

  lemma {:induction false} ParseableNeverUnreadable(budgets: seq<Budget>, pod: Pod, replicas: int)
    requires Parseable(budgets)
    ensures DesiredAvailable(budgets, pod, replicas) != Unreadable
  {
    if budgets != [] {
      assert budgets[0].selector == budgets[0].selector;
      assert Parseable(budgets[1..]) by {
        forall i | 0 <= i < |budgets| - 1 ensures !budgets[1..][i].selector.Unparseable? {
          assert budgets[1..][i] == budgets[i + 1];
        }
      }
      ParseableNeverUnreadable(budgets[1..], pod, replicas);
    }
  }

  // ---------------------------------------------------------------- one budget alone

  /** Every pod is covered, each under a name of its own. */
  ghost predicate CoversEach(b: Budget, pods: seq<Pod>) {
    && (forall p :: p in pods ==> Covers(b, p))
    && forall i, j :: 0 <= i < j < |pods| ==> pods[i].Key() != pods[j].Key()
  }

  lemma {:induction false} CoveringOf(b: Budget, pods: seq<Pod>, k: string)
    requires CoversEach(b, pods)
    ensures Covering(b, pods, k) == if exists i :: 0 <= i < |pods| && pods[i].Key() == k then 1 else 0
  {
    if pods != [] {
      var init, last := pods[..|pods| - 1], pods[|pods| - 1];
      assert pods == init + [last];
      CoveringOf(b, init, k);
      if i :| 0 <= i < |init| && init[i].Key() == k { assert pods[i].Key() == k; }
    }
  }

  /** Then only the budget's own freshness and fields are left to decide. */
  lemma LoneBlock(b: Budget, pods: seq<Pod>)
    requires CoversEach(b, pods)
    ensures BlockOf([b], pods, b) ==
      if pods == [] then NoPodsMatched
      else if b.generation != b.observedGeneration then StaleStatus
      else if Forbids(b, |pods|) then NeverSatisfiable
      else Unblocked
  {
    LoneMatched(b, pods);
    LoneApart(b, pods);
  }

  lemma LoneMatched(b: Budget, pods: seq<Pod>)
    requires CoversEach(b, pods)
    ensures Matched([b], pods, b.Key()) == pods
  {
    FilterAll(pods, CoveredBy(b));
    assert [b][..0] == [];
  }

  lemma LoneApart(b: Budget, pods: seq<Pod>)
    requires CoversEach(b, pods)
    ensures !Overlaps([b], pods, pods)
  {
    assert [b][..0] == [];
    forall i | 0 <= i < |pods| ensures Selections([b], pods, pods[i].Key()) == 1 {
      CoveringOf(b, pods, pods[i].Key());
    }
  }

  // ---------------------------------------------------------------- the two agree

  function Needed(d: Demand): (r: int) { if d.Keep? then d.n else 0 }

  ghost predicate UniqueKeys(budgets: seq<Budget>) {
    forall i, j :: 0 <= i < j < |budgets| ==> budgets[i].Key() != budgets[j].Key()
  }

  lemma {:induction false} MatchedNothing(budgets: seq<Budget>, pods: seq<Pod>, key: string)
    requires forall i :: 0 <= i < |budgets| ==> budgets[i].Key() != key
    ensures Matched(budgets, pods, key) == []
  {
    if budgets != [] { MatchedNothing(budgets[..|budgets| - 1], pods, key); }
  }

  lemma {:induction false} MatchedUnique(budgets: seq<Budget>, pods: seq<Pod>, k: nat)
    requires k < |budgets| && UniqueKeys(budgets)
    ensures Matched(budgets, pods, budgets[k].Key()) == Filter(pods, CoveredBy(budgets[k]))
  {
    var init := budgets[..|budgets| - 1];
    if k == |budgets| - 1 {
      MatchedNothing(init, pods, budgets[k].Key());
    } else {
      assert init[k] == budgets[k];
      MatchedUnique(init, pods, k);
    }
  }

  lemma {:induction false} CoveringAtLeast(b: Budget, pods: seq<Pod>, p: Pod)
    requires p in pods && Covers(b, p)
    ensures Covering(b, pods, p.Key()) >= 1
  {
    var init, last := pods[..|pods| - 1], pods[|pods| - 1];
    assert pods == init + [last];
    if last != p { CoveringAtLeast(b, init, p); }
  }

  /** Each budget that covers a pod adds to the count kept under its name. */
  lemma {:induction false} SelectionsAtLeast(budgets: seq<Budget>, pods: seq<Pod>, p: Pod, j: nat, k: nat)
    requires p in pods && j <= k < |budgets| && Covers(budgets[j], p) && Covers(budgets[k], p)
    ensures Selections(budgets, pods, p.Key()) >= if j < k then 2 else 1
  {
    var init, last := budgets[..|budgets| - 1], budgets[|budgets| - 1];
    if k == |budgets| - 1 {
      CoveringAtLeast(last, pods, p);
      if j < k { SelectionsAtLeast(init, pods, p, j, j); }
    } else {
      SelectionsAtLeast(init, pods, p, j, k);
    }
  }

  lemma {:induction false} OnlyOneSpeaks(budgets: seq<Budget>, pod: Pod, replicas: int, k: nat)
    requires k < |budgets|
    requires forall j :: 0 <= j < |budgets| && j != k ==> DemandOf(budgets[j], pod, replicas) == Silent
    ensures DesiredAvailable(budgets, pod, replicas) == DemandOf(budgets[k], pod, replicas)
  {
    var rest := budgets[1..];
    assert forall j :: 0 <= j < |rest| ==> rest[j] == budgets[j + 1];
    if k == 0 { AllSilent(rest, pod, replicas); } else { OnlyOneSpeaks(rest, pod, replicas, k - 1); }
  }

  lemma {:induction false} AllSilent(budgets: seq<Budget>, pod: Pod, replicas: int)
    requires forall j :: 0 <= j < |budgets| ==> DemandOf(budgets[j], pod, replicas) == Silent
    ensures DesiredAvailable(budgets, pod, replicas) == Silent
  {
    if budgets != [] { AllSilent(budgets[1..], pod, replicas); }
  }

  /** Two functions, one arithmetic. For a fresh budget covering n >= 1 pods, none of them
      covered twice, the drain check says "never" iff the number the engine would keep, asked
      about any of those pods, is all n; or the budget sets both fields and the second, which
      the engine ignores, resolves to zero. */
  lemma BudgetAgreement(budgets: seq<Budget>, pods: seq<Pod>, k: nat, pod: Pod)
    requires k < |budgets| && UniqueKeys(budgets) && Parseable(budgets)
    requires budgets[k].generation == budgets[k].observedGeneration
    requires pod in Matched(budgets, pods, budgets[k].Key())
    requires !Overlaps(budgets, pods, Matched(budgets, pods, budgets[k].Key()))
    ensures BlockOf(budgets, pods, budgets[k]) == NeverSatisfiable <==>
      || Needed(DesiredAvailable(budgets, pod, |Matched(budgets, pods, budgets[k].Key())|))
           >= |Matched(budgets, pods, budgets[k].Key())|
      || (budgets[k].minAvailable.Some?
          && AllowedUnavailable(budgets[k].maxUnavailable, |Matched(budgets, pods, budgets[k].Key())|) == 0)
  {
    var b := budgets[k];
    MatchedUnique(budgets, pods, k);
    var covered := Filter(pods, CoveredBy(b));
    FilterMembers(pods, CoveredBy(b));
    var i :| 0 <= i < |covered| && covered[i] == pod;
    assert Selections(budgets, pods, covered[i].Key()) <= 1;
    forall j | 0 <= j < |budgets| && j != k ensures DemandOf(budgets[j], pod, |covered|) == Silent {
      if Covers(budgets[j], pod) {
        if j < k { SelectionsAtLeast(budgets, pods, pod, j, k); } else { SelectionsAtLeast(budgets, pods, pod, k, j); }
      }
    }
    OnlyOneSpeaks(budgets, pod, |covered|, k);
  }

  /** The percentage forms: minAvailable p% forbids iff p*n > 100*(n-1), maxUnavailable p%
      iff p*n rounds up to zero, which for a valid percentage means p = 0. */
  lemma PercentForms(p: int, n: int)
    requires n >= 1
    ensures RequiredAvailable(Some(Percent(p)), n) >= n <==> p * n > 100 * (n - 1)
    ensures AllowedUnavailable(Some(Percent(p)), n) == 0 <==> -100 < p * n <= 0
    ensures p >= 0 ==> (AllowedUnavailable(Some(Percent(p)), n) == 0 <==> p == 0)
  {
    var r := CeilPercent(p * n);
    if p >= 1 { assert p * n >= n by { ProductAtLeast(p, n); } }
  }

  lemma ProductAtLeast(p: int, n: int)
    requires p >= 1 && n >= 1
    ensures p * n >= n
  {
    assert p * n == n + (p - 1) * n;
  }
}
