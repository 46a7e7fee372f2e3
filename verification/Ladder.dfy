/** internal/fix: the ladder of candidate fixes and what applying them does to a template. */
module Ladder {
  import opened Basics
  import opened Cluster
  import Spread
  import PdbCheck

  /** What a fix does to a pod template. */
  datatype Mutation =
    | Nothing
    | AddSpread(key: string, selector: Labels)
    | EnforceSpread(key: string)
    | TightenSpread(key: string)
    | RequireAntiAffinity(key: string)

  /** `replicas` is the new replica count, 0 for unchanged; an architectural finding has no patch. */
  datatype Fix = Fix(rung: nat, mutation: Mutation, replicas: nat, architectural: bool, improves: bool)

  datatype Input = Input(
    workload: Ref,
    antiAffinity: Spread.State,
    pinned: bool,
    template: Template,
    replicas: int,
    key: string,
    domains: seq<string>,
    selector: Labels,
    budget: Option<Budget>)

  // ---------------------------------------------------------------- the guards

  /** The first constraint for the key. */
  function SpreadFor(cs: seq<SpreadConstraint>, key: string): (r: Option<nat>)
    ensures r.Some? ==> r.value < |cs| && cs[r.value].topologyKey == key
    ensures r.Some? ==> forall i :: 0 <= i < r.value ==> cs[i].topologyKey != key
    ensures r.None? ==> forall i :: 0 <= i < |cs| ==> cs[i].topologyKey != key
  {
    if cs == [] then None
    else if cs[0].topologyKey == key then Some(0)
    else
      match SpreadFor(cs[1..], key)
      case Some(i) => Some(i + 1)
      case None => None
  }

  predicate Fires1(input: Input) {
    input.replicas >= 2 && input.selector != map[] && SpreadFor(input.template.spec.spread, input.key).None?
  }

  predicate Fires2(input: Input) {
    var i := SpreadFor(input.template.spec.spread, input.key);
    i.Some? && input.template.spec.spread[i.value].when == ScheduleAnyway
  }

  predicate Fires3(input: Input) {
    var i := SpreadFor(input.template.spec.spread, input.key);
    i.Some? && input.template.spec.spread[i.value].maxSkew > 1
  }

  predicate Fires4(input: Input) { input.replicas < |input.domains| }

  predicate Fires5(input: Input) { input.budget.None? && input.replicas >= 2 && input.selector != map[] }

  predicate Fires7(input: Input) {
    && input.antiAffinity == Spread.Advisory
    && input.template.spec.antiAffinity.Some?
    && Spread.Mentions(input.template.spec.antiAffinity.value.preferred, input.key)
  }

  predicate Fires8(input: Input) { input.pinned }

  // ---------------------------------------------------------------- mutations

  function MutateSpread(cs: seq<SpreadConstraint>, m: Mutation): (r: seq<SpreadConstraint>) {
    match m
    case AddSpread(key, selector) => cs + [SpreadConstraint(1, key, DoNotSchedule, None, Parsed(selector, []))]
    case EnforceSpread(key) =>
      (match SpreadFor(cs, key)
       case Some(i) => cs[i := cs[i].(when := DoNotSchedule)]
       case None => cs)
    case TightenSpread(key) =>
      (match SpreadFor(cs, key)
       case Some(i) => cs[i := cs[i].(maxSkew := 1)]
       case None => cs)
    case _ => cs
  }

  function OnKey(key: string): (f: AffinityTerm -> bool) { (t: AffinityTerm) => t.topologyKey == key }
  function OffKey(key: string): (f: AffinityTerm -> bool) { (t: AffinityTerm) => t.topologyKey != key }

  function MutateAffinity(aa: Option<AntiAffinity>, m: Mutation): (r: Option<AntiAffinity>) {
    if aa.Some? && m.RequireAntiAffinity? then
      Some(AntiAffinity(
        aa.value.required + Filter(aa.value.preferred, OnKey(m.key)),
        Filter(aa.value.preferred, OffKey(m.key))))
    else aa
  }

  function Mutated(t: Template, m: Mutation): (r: Template) {
    t.(spec := t.spec.(spread := MutateSpread(t.spec.spread, m),
                       antiAffinity := MutateAffinity(t.spec.antiAffinity, m)))
  }

  /** A pod template, changed in place. */
  class PodTemplate {
    var labels: Labels
    var spec: PodSpec

    constructor (t: Template)
      ensures Value() == t
    {
      labels, spec := t.labels, t.spec;
    }

    function Value(): (r: Template)
      reads this
    {
      Template(labels, spec)
    }

    method Mutate(m: Mutation)
      modifies this
      ensures Value() == Mutated(old(Value()), m)
    {
      var cs := spec.spread;
      match m
      case Nothing =>
      case AddSpread(key, selector) =>
        spec := spec.(spread := cs + [SpreadConstraint(1, key, DoNotSchedule, None, Parsed(selector, []))]);
      case EnforceSpread(key) =>
        var i := SpreadFor(cs, key);
        if i.None? { return; }
        spec := spec.(spread := cs[i.value := cs[i.value].(when := DoNotSchedule)]);
      case TightenSpread(key) =>
        var i := SpreadFor(cs, key);
        if i.None? { return; }
        spec := spec.(spread := cs[i.value := cs[i.value].(maxSkew := 1)]);
      case RequireAntiAffinity(key) =>
        if spec.antiAffinity.None? { return; }
        var required, kept := Promote(spec.antiAffinity.value, key);
        spec := spec.(antiAffinity := Some(AntiAffinity(required, kept)));
    }

    static method Promote(aa: AntiAffinity, key: string) returns (required: seq<AffinityTerm>, kept: seq<AffinityTerm>)
      ensures required == aa.required + Filter(aa.preferred, OnKey(key))
      ensures kept == Filter(aa.preferred, OffKey(key))
    {
      required, kept := aa.required, [];
      for i := 0 to |aa.preferred|
        invariant required == aa.required + Filter(aa.preferred[..i], OnKey(key))
        invariant kept == Filter(aa.preferred[..i], OffKey(key))
      {
        FilterStep(aa.preferred, i, OnKey(key));
        FilterStep(aa.preferred, i, OffKey(key));
        var w := aa.preferred[i];
        if w.topologyKey == key {
          required := required + [w];
          continue;
        }
        kept := kept + [w];
      }
      assert aa.preferred[..|aa.preferred|] == aa.preferred;
    }

    /** Fix.Apply: a changed copy, the caller's template untouched. */
    method Apply(f: Fix) returns (out: PodTemplate)
      ensures fresh(out) && out.Value() == Mutated(Value(), f.mutation)
    {
      out := new PodTemplate(Template(labels, spec));
      if f.mutation != Nothing { out.Mutate(f.mutation); }
    }
  }

  // ---------------------------------------------------------------- closure of rungs 1 to 3

  function SpreadRungs(input: Input): (r: set<nat>) {
    (if Fires1(input) then {1} else {}) + (if Fires2(input) then {2} else {}) + (if Fires3(input) then {3} else {})
  }

  function MutationOf(input: Input, rung: nat): (r: Mutation) {
    if rung == 1 then AddSpread(input.key, input.selector)
    else if rung == 2 then EnforceSpread(input.key)
    else if rung == 3 then TightenSpread(input.key)
    else if rung == 7 then RequireAntiAffinity(input.key)
    else Nothing
  }

  function ApplyAll(input: Input, t: Template, rungs: seq<nat>): (r: Template)
    decreases |rungs|
  {
    if rungs == [] then t else ApplyAll(input, Mutated(t, MutationOf(input, rungs[0])), rungs[1..])
  }

  function ForOther(key: string): (f: SpreadConstraint -> bool) { (c: SpreadConstraint) => c.topologyKey != key }

  /** Rewriting the constraint for a key touches no other key's constraint. */
  lemma OthersUntouched(cs: seq<SpreadConstraint>, m: Mutation, key: string)
    requires (m.AddSpread? || m.EnforceSpread? || m.TightenSpread?) && m.key == key
    ensures Filter(MutateSpread(cs, m), ForOther(key)) == Filter(cs, ForOther(key))
  {
    if m.AddSpread? {
      var c := SpreadConstraint(1, key, DoNotSchedule, None, Parsed(m.selector, []));
      assert (cs + [c])[..|cs|] == cs;
    } else {
      var i := SpreadFor(cs, key);
      if i.Some? {
        var c := MutateSpread(cs, m)[i.value];
        UpdateUnseen(cs, i.value, c, ForOther(key));
      }
    }
  }

  lemma {:induction false} UpdateUnseen(cs: seq<SpreadConstraint>, i: nat, c: SpreadConstraint,
                                        f: SpreadConstraint -> bool)
    requires i < |cs| && !f(cs[i]) && !f(c)
    ensures Filter(cs[i := c], f) == Filter(cs, f)
  {
    var n := |cs| - 1;
    if i == n {
      assert cs[i := c][..n] == cs[..n];
    } else {
      assert cs[i := c][..n] == cs[..n][i := c];
      UpdateUnseen(cs[..n], i, c, f);
    }
  }

  /** The constraint for the key is enforced, as tight as the ladder makes it. */
  ghost predicate Settled(cs: seq<SpreadConstraint>, key: string) {
    var i := SpreadFor(cs, key);
    i.Some? && cs[i.value].when == DoNotSchedule && cs[i.value].maxSkew <= 1
  }

  lemma {:induction false} SpreadForAt(cs: seq<SpreadConstraint>, key: string, i: nat)
    requires i < |cs| && cs[i].topologyKey == key && forall j :: 0 <= j < i ==> cs[j].topologyKey != key
    ensures SpreadFor(cs, key) == Some(i)
  {
    if i > 0 {
      forall j | 0 <= j < i - 1 ensures cs[1..][j].topologyKey != key { assert cs[1..][j] == cs[j + 1]; }
      SpreadForAt(cs[1..], key, i - 1);
    }
  }

  /** A settled constraint is what the classifier calls enforced. */
  lemma SettledIsEnforced(cs: seq<SpreadConstraint>, key: string, replicas: int, domainCount: int)
    requires Settled(cs, key) && replicas >= 2 && domainCount >= 2
    ensures Spread.StateOf(cs, key, replicas, domainCount) == Spread.Enforced
  {
    var i := SpreadFor(cs, key).value;
    assert Spread.Binds(cs[i], key);
    Spread.TightestBinds(cs, key);
  }

  /** Whatever the order, the rungs that fire settle the template's constraint for the key. */
  lemma Settle(input: Input, rungs: seq<nat>)
    requires input.replicas >= 2 && input.selector != map[]
    requires Lists(rungs, SpreadRungs(input))
    ensures Settled(ApplyAll(input, input.template, rungs).spec.spread, input.key)
    ensures Filter(ApplyAll(input, input.template, rungs).spec.spread, ForOther(input.key))
         == Filter(input.template.spec.spread, ForOther(input.key))
  {
    var cs := input.template.spec.spread;
    var at := SpreadFor(cs, input.key);
    FewRungs(input, rungs);
    if at.None? {
      assert rungs == [1];
      var m := MutationOf(input, 1);
      SpreadForAt(MutateSpread(cs, m), input.key, |cs|);
      OthersUntouched(cs, m, input.key);
      ApplyOne(input, input.template, 1);
    } else if |rungs| == 1 {
      var m := MutationOf(input, rungs[0]);
      SpreadForAt(MutateSpread(cs, m), input.key, at.value);
      OthersUntouched(cs, m, input.key);
      ApplyOne(input, input.template, rungs[0]);
    } else if |rungs| == 2 {
      var m, m' := MutationOf(input, rungs[0]), MutationOf(input, rungs[1]);
      var next := MutateSpread(cs, m);
      SpreadForAt(next, input.key, at.value);
      SpreadForAt(MutateSpread(next, m'), input.key, at.value);
      OthersUntouched(cs, m, input.key);
      OthersUntouched(next, m', input.key);
      ApplyTwo(input, input.template, rungs[0], rungs[1]);
    }
  }

  lemma ApplyOne(input: Input, t: Template, a: nat)
    ensures ApplyAll(input, t, [a]) == Mutated(t, MutationOf(input, a))
  {
    assert [a][1..] == [];
  }

  lemma ApplyTwo(input: Input, t: Template, a: nat, b: nat)
    ensures ApplyAll(input, t, [a, b]) == Mutated(Mutated(t, MutationOf(input, a)), MutationOf(input, b))
  {
    assert [a, b][1..] == [b];
    ApplyOne(input, Mutated(t, MutationOf(input, a)), b);
  }

  /** Rung 1 excludes the other two, so a run has at most two steps. */
  lemma FewRungs(input: Input, rungs: seq<nat>)
    requires Lists(rungs, SpreadRungs(input))
    ensures Fires1(input) ==> rungs == [1]
    ensures |rungs| <= 2
    ensures |rungs| == 1 ==> rungs == [rungs[0]] && rungs[0] in SpreadRungs(input)
    ensures |rungs| == 2 ==> rungs == [2, 3] || rungs == [3, 2]
    ensures |rungs| == 0 ==> rungs == [] && SpreadRungs(input) == {}
  {
    var fired := SpreadRungs(input);
    ListsSize(rungs, fired);
    assert |fired| <= 2 by {
      if Fires1(input) { assert fired == {1}; } else { SubsetOfTwo(fired); }
    }
    forall i | 0 <= i < |rungs| ensures rungs[i] in fired { assert rungs[i] in rungs; }
    if Fires1(input) { assert fired == {1}; }
  }

  lemma SubsetOfTwo(fired: set<nat>)
    requires fired <= {2, 3}
    ensures |fired| <= 2
  {
    assert fired == {} || fired == {2} || fired == {3} || fired == {2, 3} by {
      if 2 in fired && 3 in fired { assert fired == {2, 3}; }
      else if 2 in fired { assert fired == {2}; }
      else if 3 in fired { assert fired == {3}; }
      else { assert fired == {}; }
    }
  }

  /** Ladder closure: applying every one of rungs 1 to 3 that fires, in any order, yields a
      template the classifier calls enforced, on which none of the three fires again, with the
      constraints on other topology keys unchanged in value and order. */
  lemma LadderCloses(input: Input, rungs: seq<nat>)
    requires input.replicas >= 2 && input.selector != map[] && |input.domains| >= 2
    requires Lists(rungs, SpreadRungs(input))
    ensures var t := ApplyAll(input, input.template, rungs);
      && Spread.StateOf(t.spec.spread, input.key, input.replicas, |input.domains|) == Spread.Enforced
      && SpreadRungs(input.(template := t)) == {}
      && Filter(t.spec.spread, ForOther(input.key)) == Filter(input.template.spec.spread, ForOther(input.key))
  {
    Settle(input, rungs);
    SettledIsEnforced(ApplyAll(input, input.template, rungs).spec.spread, input.key, input.replicas, |input.domains|);
  }

  // ---------------------------------------------------------------- rung 7

  /** Promotion keeps every term. */
  lemma AntiAffinityConserved(before: AntiAffinity, key: string)
    ensures var after := MutateAffinity(Some(before), RequireAntiAffinity(key)).value;
      multiset(after.required) + multiset(after.preferred) == multiset(before.required) + multiset(before.preferred)
  {
    SplitTerms(before.preferred, key);
  }

  /** And the guarantee is real afterwards: the classifier calls it enforced, and nothing is
      left for the rung to promote. */
  lemma AntiAffinityPromoted(input: Input)
    requires Fires7(input)
    ensures var t := Mutated(input.template, MutationOf(input, 7));
      Spread.AntiAffinityState(t.spec.antiAffinity, input.key) == Spread.Enforced && !Fires7(input.(template := t))
  {
    var before := input.template.spec.antiAffinity.value;
    MovedTerm(before.preferred, input.key);
    var moved := Filter(before.preferred, OnKey(input.key));
    var j :| 0 <= j < |moved| && moved[j].topologyKey == input.key;
    assert (before.required + moved)[|before.required| + j].topologyKey == input.key;
  }

  lemma MovedTerm(preferred: seq<AffinityTerm>, key: string)
    requires Spread.Mentions(preferred, key)
    ensures Spread.Mentions(Filter(preferred, OnKey(key)), key)
    ensures !Spread.Mentions(Filter(preferred, OffKey(key)), key)
  {
    var moved, kept := Filter(preferred, OnKey(key)), Filter(preferred, OffKey(key));
    FilterMembers(preferred, OnKey(key));
    FilterMembers(preferred, OffKey(key));
    var i :| 0 <= i < |preferred| && preferred[i].topologyKey == key;
    assert preferred[i] in moved;
    forall k | 0 <= k < |kept| ensures kept[k].topologyKey != key { assert kept[k] in kept; }
  }

  lemma {:induction false} SplitTerms(ts: seq<AffinityTerm>, key: string)
    ensures multiset(Filter(ts, OnKey(key))) + multiset(Filter(ts, OffKey(key))) == multiset(ts)
  {
    if ts != [] {
      var init, last := ts[..|ts| - 1], ts[|ts| - 1];
      SplitTerms(init, key);
      assert ts == init + [last];
      SplitOne(init, last, key);
    }
  }

  lemma SplitOne(init: seq<AffinityTerm>, last: AffinityTerm, key: string)
    requires multiset(Filter(init, OnKey(key))) + multiset(Filter(init, OffKey(key))) == multiset(init)
    ensures multiset(Filter(init + [last], OnKey(key))) + multiset(Filter(init + [last], OffKey(key)))
         == multiset(init + [last])
  {
    FilterAppend(init, last, OnKey(key));
    FilterAppend(init, last, OffKey(key));
  }

  // ---------------------------------------------------------------- rung 6

  function BudgetName(input: Input): (r: string)
    requires input.budget.Some?
  {
    if input.budget.value.name != "" then input.budget.value.name
    else if input.workload.name != "" then input.workload.name + "-pdb"
    else "workload-pdb"
  }

  /** The workload's budget over pods that certainly match it. */
  function SyntheticBudget(input: Input): (r: Budget)
    requires input.budget.Some?
  {
    input.budget.value.(name := BudgetName(input), namespace := "default", selector := Parsed(input.selector, []))
  }

  const EMPTY_SPEC := PodSpec("", [], [], [], [], None)

  function SyntheticPod(input: Input, i: nat): (r: Pod)
    requires input.budget.Some?
  {
    Pod("default", BudgetName(input) + "-" + Itoa(i), "", input.selector, [], EMPTY_SPEC, Running, true, false)
  }

  function SyntheticPods(input: Input, n: nat): (pods: seq<Pod>)
    requires input.budget.Some?
    ensures |pods| == n && forall i :: 0 <= i < n ==> pods[i] == SyntheticPod(input, i)
  {
    if n == 0 then [] else SyntheticPods(input, n - 1) + [SyntheticPod(input, n - 1)]
  }

  /** Whether pdbcheck calls the budget never satisfiable over `replicas` matching pods. */
  method PdbUnsatisfiable(input: Input) returns (r: bool)
    ensures r == Fires6(input)
  {
    if input.budget.None? { return false; }
    var name := BudgetName(input);
    var pods := [];
    for i := 0 to if input.replicas > 0 then input.replicas else 0
      invariant pods == SyntheticPods(input, i)
    {
      pods := pods + [SyntheticPod(input, i)];
    }
    var findings := PdbCheck.Analyze(Snapshot([], pods, [SyntheticBudget(input)], [], [], [], [], [], [], []));
    Rung6Exact(input);
    for i := 0 to |findings|
      invariant i == 0
    {
      if findings[i].budget == name { return findings[i].block == PdbCheck.NeverSatisfiable; }
    }
    return false;
  }

  /** The rung's condition without the detour: a fresh budget, at least one replica, and fields
      that forbid every eviction among that many. */
  predicate Fires6(input: Input) {
    && input.budget.Some?
    && input.budget.value.generation == input.budget.value.observedGeneration
    && input.replicas >= 1
    && PdbCheck.Forbids(input.budget.value, input.replicas)
  }

  lemma NamesDiffer(input: Input, i: nat, j: nat)
    requires input.budget.Some? && SyntheticPod(input, i).Key() == SyntheticPod(input, j).Key()
    ensures i == j
  {
    var stem := "default" + "/" + BudgetName(input) + "-";
    assert SyntheticPod(input, i).Key() == stem + Itoa(i) && SyntheticPod(input, j).Key() == stem + Itoa(j);
    assert Itoa(i) == SyntheticPod(input, i).Key()[|stem|..] && Itoa(j) == SyntheticPod(input, j).Key()[|stem|..];
    ItoaInjective(i, j);
  }

  lemma SyntheticCovered(input: Input, i: nat)
    requires input.budget.Some?
    ensures PdbCheck.Covers(SyntheticBudget(input), SyntheticPod(input, i))
  {}

  /** The synthetic snapshot asks exactly that question: the names it makes up are distinct, so
      no pod is counted twice. */
  lemma Rung6Exact(input: Input)
    requires input.budget.Some?
    ensures var n := if input.replicas > 0 then input.replicas else 0;
      Fires6(input) <==>
      PdbCheck.BlockOf([SyntheticBudget(input)], SyntheticPods(input, n), SyntheticBudget(input)) ==
        PdbCheck.NeverSatisfiable
  {
    var n: nat := if input.replicas > 0 then input.replicas else 0;
    var b, pods := SyntheticBudget(input), SyntheticPods(input, n);
    forall p | p in pods ensures PdbCheck.Covers(b, p) {
      var i :| 0 <= i < |pods| && pods[i] == p;
      SyntheticCovered(input, i);
    }
    forall i, j | 0 <= i < j < |pods| ensures pods[i].Key() != pods[j].Key() {
      if pods[i].Key() == pods[j].Key() { NamesDiffer(input, i, j); }
    }
    PdbCheck.LoneBlock(b, pods);
  }

  /** The rung fires exactly when the number the engine would keep is all the replicas, or both
      fields are set and the one the engine ignores resolves to zero. */
  lemma Rung6MeansKeepAll(input: Input)
    requires input.budget.Some? && input.replicas >= 1
    requires input.budget.value.generation == input.budget.value.observedGeneration
    ensures Fires6(input) <==>
      || PdbCheck.Needed(PdbCheck.DesiredAvailable([SyntheticBudget(input)], SyntheticPod(input, 0), input.replicas)) >=
        input.replicas
      || (input.budget.value.minAvailable.Some?
          && PdbCheck.AllowedUnavailable(input.budget.value.maxUnavailable, input.replicas) == 0)
  {
    var b, p := SyntheticBudget(input), SyntheticPod(input, 0);
    assert [b][1..] == [];
    assert b.selector.Matches(p.labels);
    assert b.minAvailable == input.budget.value.minAvailable && b.maxUnavailable == input.budget.value.maxUnavailable;
  }

  /** What rungs 5 and 6 propose. */
  function Proposed(b: Budget): (r: Budget) { b.(minAvailable := None, maxUnavailable := Some(Count(1))) }

  /** The repair holds: the proposed budget never triggers the rung again, at any replica count. */
  lemma RepairHolds(input: Input, replicas: int)
    requires input.budget.Some?
    ensures !Fires6(input.(budget := Some(Proposed(input.budget.value)), replicas := replicas))
    ensures !PdbCheck.Forbids(Proposed(input.budget.value), replicas)
  {}

  // ---------------------------------------------------------------- the candidates

  predicate Fires(input: Input, rung: nat) {
    if rung == 1 then Fires1(input) && !input.pinned
    else if rung == 2 then Fires2(input) && !input.pinned
    else if rung == 3 then Fires3(input) && !input.pinned
    else if rung == 4 then Fires4(input)
    else if rung == 5 then Fires5(input)
    else if rung == 6 then Fires6(input)
    else if rung == 7 then Fires7(input) && !input.pinned
    else if rung == 8 then Fires8(input)
    else false
  }

  function FixOf(input: Input, rung: nat): (r: Fix) {
    Fix(rung, MutationOf(input, rung), if rung == 4 then |input.domains| else 0, rung == 8,
        rung in {1, 2, 3, 4, 7})
  }

  function RungsUpTo(input: Input, n: nat): (r: seq<Fix>) {
    if n == 0 then []
    else RungsUpTo(input, n - 1) + (if Fires(input, n) then [FixOf(input, n)] else [])
  }

  lemma {:induction false} RungsMembers(input: Input, n: nat, f: Fix)
    ensures f in RungsUpTo(input, n) <==> exists k :: 1 <= k <= n && Fires(input, k) && f == FixOf(input, k)
  {
    if n > 0 { RungsMembers(input, n - 1, f); }
  }

  lemma {:induction false} RungsAscend(input: Input, n: nat)
    ensures forall i, j :: 0 <= i < j < |RungsUpTo(input, n)| ==>
      RungsUpTo(input, n)[i].rung < RungsUpTo(input, n)[j].rung
    ensures forall i :: 0 <= i < |RungsUpTo(input, n)| ==> 1 <= RungsUpTo(input, n)[i].rung <= n
  {
    if n > 0 { RungsAscend(input, n - 1); }
  }

  lemma AllRungs(input: Input)
    ensures forall f :: f in RungsUpTo(input, 8) <==> exists k :: 1 <= k <= 8 && Fires(input, k) && f == FixOf(input, k)
    ensures forall i, j :: 0 <= i < j < |RungsUpTo(input, 8)| ==>
      RungsUpTo(input, 8)[i].rung < RungsUpTo(input, 8)[j].rung
  {
    forall f { RungsMembers(input, 8, f); }
    RungsAscend(input, 8);
  }

  /** Each rung that fires, once, in rung order. */
  method Candidates(input: Input) returns (out: seq<Fix>)
    ensures forall f :: f in out <==> exists k :: 1 <= k <= 8 && Fires(input, k) && f == FixOf(input, k)
    ensures forall i, j :: 0 <= i < j < |out| ==> out[i].rung < out[j].rung
  {
    out := [];
    var movable := !input.pinned;
    if movable && Fires1(input) { out := out + [Fix(1, AddSpread(input.key, input.selector), 0, false, true)]; }
    assert out == RungsUpTo(input, 1);
    if movable && Fires2(input) { out := out + [Fix(2, EnforceSpread(input.key), 0, false, true)]; }
    assert out == RungsUpTo(input, 2);
    if movable && Fires3(input) { out := out + [Fix(3, TightenSpread(input.key), 0, false, true)]; }
    assert out == RungsUpTo(input, 3);
    if Fires4(input) { out := out + [Fix(4, Nothing, |input.domains|, false, true)]; }
    assert out == RungsUpTo(input, 4);
    if Fires5(input) { out := out + [Fix(5, Nothing, 0, false, false)]; }
    assert out == RungsUpTo(input, 5);
    var broken := PdbUnsatisfiable(input);
    if broken { out := out + [Fix(6, Nothing, 0, false, false)]; }
    assert out == RungsUpTo(input, 6);
    if movable && Fires7(input) { out := out + [Fix(7, RequireAntiAffinity(input.key), 0, false, true)]; }
    assert out == RungsUpTo(input, 7);
    if Fires8(input) { out := out + [Fix(8, Nothing, 0, true, false)]; }
    assert out == RungsUpTo(input, 8);
    AllRungs(input);
  }
}
