/** What the rungs propose, and what they leave alone. */
module LadderFacts {
  import opened Cluster
  import opened Ladder
  import PdbCheck
  import DrainFacts

  /** A rung claims to improve survivability exactly when it changes the template or the number of
      replicas; only the last proposes nothing to apply. */
  lemma RungsClaim(input: Input, rung: nat)
    requires 1 <= rung <= 8 && input.domains != []
    ensures var f := FixOf(input, rung);
      && f.rung == rung
      && (f.improves <==> f.mutation != Nothing || f.replicas > 0)
      && (f.architectural <==> rung == 8)
      && (f.mutation != Nothing ==> f.replicas == 0)
  {}

  /** The budget rungs 5 and 6 propose keeps all pods but one, and so permits one eviction at a time. */
  lemma ProposedKeeps(b: Budget, pod: Pod, n: int)
    requires n >= 1
    ensures DrainFacts.Need(Proposed(b), n) == n - 1
    ensures b.namespace == pod.namespace && b.selector.Matches(pod.labels) ==>
      PdbCheck.DemandOf(Proposed(b), pod, n) == PdbCheck.Keep(n - 1)
    ensures Proposed(b).selector == b.selector && Proposed(b).Key() == b.Key()
  {}

  // ---------------------------------------------------------------- what the mutations do

  /** The rest of the template is left alone. */
  lemma OnlyPlacementChanges(t: Template, m: Mutation)
    ensures var after := Mutated(t, m);
      && after.labels == t.labels && after.spec.claims == t.spec.claims && after.spec.nodeName == t.spec.nodeName
      && after.spec.containers == t.spec.containers && after.spec.initContainers == t.spec.initContainers
      && (!m.RequireAntiAffinity? ==> after.spec.antiAffinity == t.spec.antiAffinity)
      && (m.RequireAntiAffinity? || m.Nothing? ==> after.spec.spread == t.spec.spread)
  {}

  /** Rungs 2 and 3 rewrite the first constraint on the key, one field of it each. */
  lemma RewritesFirst(cs: seq<SpreadConstraint>, key: string, i: nat)
    requires i < |cs| && cs[i].topologyKey == key && forall j :: 0 <= j < i ==> cs[j].topologyKey != key
    ensures var enforced, tightened := MutateSpread(cs, EnforceSpread(key)), MutateSpread(cs, TightenSpread(key));
      && |enforced| == |tightened| == |cs|
      && (forall j :: 0 <= j < |cs| && j != i ==> enforced[j] == cs[j] == tightened[j])
      && enforced[i].when == DoNotSchedule && enforced[i].(when := cs[i].when) == cs[i]
      && tightened[i].maxSkew == 1 && tightened[i].(maxSkew := cs[i].maxSkew) == cs[i]
  {
    SpreadForAt(cs, key, i);
  }

  /** Rung 1 adds a constraint of skew one that the workload's own pods, and only pods with its
      labels, count for. */
  lemma AddsOne(cs: seq<SpreadConstraint>, key: string, selector: Labels, p: Pod)
    ensures var after := MutateSpread(cs, AddSpread(key, selector));
      && |after| == |cs| + 1 && after[..|cs|] == cs
      && after[|cs|].maxSkew == 1 && after[|cs|].topologyKey == key && after[|cs|].when == DoNotSchedule
      && after[|cs|].minDomains.None?
      && (after[|cs|].selector.Matches(p.labels) <==> selector.Items <= p.labels.Items)
  {
    SelectorLaws(p.labels, Parsed(selector, []));
  }
}
