/** internal/verify/analyze.go: every failing workload's fixes, proven and ranked. */
module Rank {
  import opened Basics
  import opened Cluster
  import opened Workload
  import opened Ladder
  import opened Sched
  import opened Survive
  import opened Verify
  import SchedFacts
  import Domain
  import DepGraph

  /** A partial fix places every replica but does not make the workload survive: it is shown as
      an alternative, never as a fix. */
  datatype Verified = Verified(fix: Fix, proof: Proof, partial: bool)

  /** `incomplete` lists the rungs whose proof ended in an error. */
  datatype Answer = Answer(workload: Ref, domain: string, incomplete: seq<nat>, fixes: seq<Verified>,
                           architectural: seq<Fix>)

  // ---------------------------------------------------------------- the budget of a workload

  predicate Selects(idx: Index, b: Budget, p: Pod, ref: Ref) {
    p.namespace == b.namespace && b.selector.Matches(p.labels) && RefOf(idx, p) == ref
  }

  predicate Guards(idx: Index, b: Budget, pods: seq<Pod>, ref: Ref) {
    exists i | 0 <= i < |pods| :: Selects(idx, b, pods[i], ref)
  }

  /** The first budget that selects one of the workload's pods. */
  function BudgetFor(idx: Index, budgets: seq<Budget>, pods: seq<Pod>, ref: Ref): (r: Option<Budget>) {
    if budgets == [] then None
    else
      var last := budgets[|budgets| - 1];
      OrElse(BudgetFor(idx, budgets[..|budgets| - 1], pods, ref), Guards(idx, last, pods, ref), last)
  }

  function OrElse(earlier: Option<Budget>, guards: bool, b: Budget): (r: Option<Budget>) {
    if earlier.Some? then earlier else if guards then Some(b) else None
  }

  function Get(m: map<Ref, Budget>, r: Ref): (out: Option<Budget>) { if r in m then Some(m[r]) else None }

  method PdbsByWorkload(s: Snapshot) returns (out: map<Ref, Budget>)
    ensures forall r :: Get(out, r) == BudgetFor(IndexOf(s), s.budgets, s.pods, r)
  {
    var idx := NewIndex(s);
    out := map[];
    for i := 0 to |s.budgets|
      invariant forall r :: Get(out, r) == BudgetFor(idx, s.budgets[..i], s.pods, r)
    {
      assert s.budgets[..i + 1][..i] == s.budgets[..i];
      out := Assign(idx, s.budgets[i], s.pods, out);
    }
    assert s.budgets[..|s.budgets|] == s.budgets;
  }

  /** One budget goes to the workloads of the pods it selects that have none yet. */
  method Assign(idx: Index, b: Budget, pods: seq<Pod>, out0: map<Ref, Budget>) returns (out: map<Ref, Budget>)
    ensures forall r :: Get(out, r) == OrElse(Get(out0, r), Guards(idx, b, pods, r), b)
  {
    out := out0;
    for i := 0 to |pods|
      invariant forall r :: Get(out, r) == OrElse(Get(out0, r), Guards(idx, b, pods[..i], r), b)
    {
      var longer := pods[..i + 1];
      assert forall r :: Guards(idx, b, longer, r) <==> Guards(idx, b, pods[..i], r) || Selects(idx, b, pods[i], r) by {
        assert longer == pods[..i] + [pods[i]];
        forall r ensures Guards(idx, b, longer, r) <==> Guards(idx, b, pods[..i], r) || Selects(idx, b, pods[i], r) {
          GuardsStep(idx, b, pods[..i], pods[i], r);
        }
      }
      if pods[i].namespace != b.namespace || !b.selector.Matches(pods[i].labels) { continue; }
      var ref := RefOf(idx, pods[i]);
      if ref !in out { out := out[ref := b]; }
    }
    assert pods[..|pods|] == pods;
  }

  lemma GuardsStep(idx: Index, b: Budget, pods: seq<Pod>, p: Pod, r: Ref)
    ensures Guards(idx, b, pods + [p], r) <==> Guards(idx, b, pods, r) || Selects(idx, b, p, r)
  {
    var longer := pods + [p];
    if i :| 0 <= i < |pods| && Selects(idx, b, pods[i], r) { assert longer[i] == pods[i]; }
    if Selects(idx, b, p, r) { assert longer[|pods|] == p; }
  }

  // ---------------------------------------------------------------- the object behind a workload

  /** The first controller of that name. */
  function Find(cs: seq<Controller>, ref: Ref): (r: Option<Controller>) {
    if cs == [] then None
    else if cs[0].namespace == ref.namespace && cs[0].name == ref.name then Some(cs[0])
    else Find(cs[1..], ref)
  }

  method FindController(cs: seq<Controller>, ref: Ref) returns (c: Option<Controller>)
    ensures c == Find(cs, ref)
  {
    for i := 0 to |cs|
      invariant Find(cs, ref) == Find(cs[i..], ref)
    {
      assert cs[i..][0] == cs[i] && cs[i..][1..] == cs[i + 1..];
      if cs[i].namespace == ref.namespace && cs[i].name == ref.name { return Some(cs[i]); }
    }
    return None;
  }

  function Controllers(s: Snapshot, kind: string): (r: seq<Controller>) {
    if kind == "Deployment" then s.deployments else if kind == "StatefulSet" then s.statefulSets else []
  }

  method ResolveWorkload(s: Snapshot, ref: Ref) returns (c: Option<Controller>)
    ensures c == Find(Controllers(s, ref.kind), ref)
  {
    if ref.kind == "Deployment" {
      c := FindController(s.deployments, ref);
    } else if ref.kind == "StatefulSet" {
      c := FindController(s.statefulSets, ref);
    } else {
      c := None;
    }
  }

  function ReplicaCount(c: Controller, idx: Index, ref: Ref): (r: int) {
    if c.replicas.Some? then c.replicas.value else if ref in idx.replicas then idx.replicas[ref] else 0
  }

  function SelectorLabels(c: Controller): (r: Labels) {
    if c.selector.Parsed? && c.selector.matchLabels != map[] then c.selector.matchLabels else c.template.labels
  }

  /** What the ladder is asked about one failing verdict. */
  function InputFor(s: Snapshot, key: string, domains: seq<string>, v: Verdict, c: Controller): (r: Input) {
    var idx := IndexOf(s);
    Input(v.workload, v.antiAffinity, v.pins != [], c.template, ReplicaCount(c, idx, v.workload), key, domains,
          SelectorLabels(c), BudgetFor(idx, s.budgets, s.pods, v.workload))
  }

  // ---------------------------------------------------------------- trying the candidates

  /** Worth showing: the proof went through and every replica has a node. */
  ghost predicate Keeps(filter: Plugins, s: Snapshot, key: string, input: Input, f: Fix) {
    var p := ProofOf(filter, s, key, input, f);
    !f.architectural && !p.failed && p.schedulable
  }

  ghost predicate Unanswered(filter: Plugins, s: Snapshot, key: string, input: Input, f: Fix) {
    !f.architectural && ProofOf(filter, s, key, input, f).failed
  }

  ghost function VerifiedOf(filter: Plugins, s: Snapshot, key: string, input: Input, f: Fix): (r: Verified) {
    var p := ProofOf(filter, s, key, input, f);
    Verified(f, p, !p.survives)
  }

  ghost function Kept(filter: Plugins, s: Snapshot, key: string, input: Input, fs: seq<Fix>): (r: seq<Verified>) {
    if fs == [] then []
    else
      Kept(filter, s, key, input, fs[..|fs| - 1]) +
      (if Keeps(filter, s, key, input, fs[|fs| - 1]) then [VerifiedOf(filter, s, key, input, fs[|fs| - 1])] else [])
  }

  ghost function Unproven(filter: Plugins, s: Snapshot, key: string, input: Input, fs: seq<Fix>): (r: seq<nat>) {
    if fs == [] then []
    else
      Unproven(filter, s, key, input, fs[..|fs| - 1]) +
      (if Unanswered(filter, s, key, input, fs[|fs| - 1]) then [fs[|fs| - 1].rung] else [])
  }

  function IsArchitectural(): (f: Fix -> bool) { (f: Fix) => f.architectural }

  /** Every candidate is verified against the same untouched scheduler. */
  method Try(v: Verifier, input: Input, fs: seq<Fix>)
    returns (fixes: seq<Verified>, architectural: seq<Fix>, incomplete: seq<nat>)
    requires v.Valid()
    modifies v.sched
    ensures v.Valid() && v.sched.cache == old(v.sched.cache) && v.sched.view == old(v.sched.view)
    ensures fixes == Kept(v.sched.filter, v.snap, v.key, input, fs)
    ensures architectural == Filter(fs, IsArchitectural())
    ensures incomplete == Unproven(v.sched.filter, v.snap, v.key, input, fs)
  {
    fixes, architectural, incomplete := [], [], [];
    for i := 0 to |fs|
      invariant v.Valid() && v.sched.cache == old(v.sched.cache) && v.sched.view == old(v.sched.view)
      invariant fixes == Kept(v.sched.filter, v.snap, v.key, input, fs[..i])
      invariant architectural == Filter(fs[..i], IsArchitectural())
      invariant incomplete == Unproven(v.sched.filter, v.snap, v.key, input, fs[..i])
    {
      assert fs[..i + 1][..i] == fs[..i];
      if fs[i].architectural {
        architectural := architectural + [fs[i]];
        continue;
      }
      var proof := v.Verify(input, fs[i]);
      if proof.failed {
        incomplete := incomplete + [fs[i].rung];
        continue;
      }
      if !proof.schedulable { continue; }
      fixes := fixes + [Verified(fs[i], proof, !proof.survives)];
    }
    assert fs[..|fs|] == fs;
  }

  // ---------------------------------------------------------------- ranking

  predicate RankLe(a: Verified, b: Verified) {
    if a.partial != b.partial then !a.partial else a.fix.rung <= b.fix.rung
  }

  /** Fixes before alternatives, and ascending rungs within each. */
  ghost predicate Ranked(xs: seq<Verified>) {
    forall i, j :: 0 <= i < j < |xs| ==> RankLe(xs[i], xs[j]) && xs[i].fix.rung != xs[j].fix.rung
  }

  /** Exactly the rungs that fire and whose fix was kept, with their proofs. */
  ghost predicate Shows(filter: Plugins, s: Snapshot, key: string, input: Input, xs: seq<Verified>) {
    forall x :: x in xs <==>
      exists k :: 1 <= k <= 8 && Fires(input, k) && Keeps(filter, s, key, input, FixOf(input, k))
                  && x == VerifiedOf(filter, s, key, input, FixOf(input, k))
  }

  ghost predicate Ascending(ns: seq<nat>) { forall i, j :: 0 <= i < j < |ns| ==> ns[i] < ns[j] }

  /** The rung fired and its proof ended in an error. */
  ghost predicate Notes(filter: Plugins, s: Snapshot, key: string, input: Input, n: nat) {
    1 <= n <= 8 && Fires(input, n) && Unanswered(filter, s, key, input, FixOf(input, n))
  }

  ghost predicate IsAnswer(filter: Plugins, s: Snapshot, key: string, input: Input, a: Answer) {
    && Ranked(a.fixes)
    && Shows(filter, s, key, input, a.fixes)
    && (forall n :: n in a.incomplete <==> Notes(filter, s, key, input, n))
    && Ascending(a.incomplete)
    && a.architectural == (if Fires8(input) then [FixOf(input, 8)] else [])
  }

  lemma {:induction false} KeptMembers(filter: Plugins, s: Snapshot, key: string, input: Input, fs: seq<Fix>,
                                       x: Verified)
    ensures x in Kept(filter, s, key, input, fs)
       <==> exists f :: f in fs && Keeps(filter, s, key, input, f) && x == VerifiedOf(filter, s, key, input, f)
  {
    if fs != [] {
      var init, last := fs[..|fs| - 1], fs[|fs| - 1];
      assert fs == init + [last];
      KeptMembers(filter, s, key, input, init, x);
    }
  }

  lemma {:induction false} UnprovenMembers(filter: Plugins, s: Snapshot, key: string, input: Input, fs: seq<Fix>,
                                           n: nat)
    ensures n in Unproven(filter, s, key, input, fs)
       <==> exists f :: f in fs && Unanswered(filter, s, key, input, f) && n == f.rung
  {
    if fs != [] {
      var init, last := fs[..|fs| - 1], fs[|fs| - 1];
      assert fs == init + [last];
      UnprovenMembers(filter, s, key, input, init, n);
    }
  }

  ghost predicate RungsDiffer(xs: seq<Verified>) {
    forall i, j :: 0 <= i < j < |xs| ==> xs[i].fix.rung != xs[j].fix.rung
  }

  lemma {:induction false} KeptRungs(filter: Plugins, s: Snapshot, key: string, input: Input, fs: seq<Fix>)
    requires forall i, j :: 0 <= i < j < |fs| ==> fs[i].rung < fs[j].rung
    ensures RungsDiffer(Kept(filter, s, key, input, fs))
    ensures forall x :: x in Kept(filter, s, key, input, fs) ==> x.fix.rung <= fs[|fs| - 1].rung
  {
    if fs != [] {
      var init, last := fs[..|fs| - 1], fs[|fs| - 1];
      KeptRungs(filter, s, key, input, init);
      var kept := Kept(filter, s, key, input, init);
      forall i | 0 <= i < |kept| ensures kept[i].fix.rung < last.rung {
        assert kept[i] in kept;
        assert init != [] && init[|init| - 1] == fs[|fs| - 2];
      }
    }
  }

  lemma {:induction false} DistinctMultiset(xs: seq<Verified>)
    requires RungsDiffer(xs)
    ensures multiset(xs) == multiset(set x | x in xs)
  {
    if xs != [] {
      var init, last := xs[..|xs| - 1], xs[|xs| - 1];
      assert xs == init + [last];
      DistinctMultiset(init);
      assert last !in init;
      assert (set x | x in xs) == (set x | x in init) + {last};
    }
  }

  lemma SameRungs(xs: seq<Verified>, ys: seq<Verified>)
    requires RungsDiffer(xs) && multiset(ys) == multiset(xs)
    ensures RungsDiffer(ys) && forall x :: x in ys <==> x in xs
  {
    DistinctMultiset(xs);
    ListsFromMultiset(ys, set x | x in xs);
    forall i, j | 0 <= i < j < |ys| ensures ys[i].fix.rung != ys[j].fix.rung {
      assert ys[i] in ys && ys[j] in ys;
      var k :| 0 <= k < |xs| && xs[k] == ys[i];
      var m :| 0 <= m < |xs| && xs[m] == ys[j];
      assert k != m;
    }
  }

  lemma RankOrder()
    ensures TotalPreorder(RankLe)
  {}

  /** The ladder on one failing workload. */
  method Rank(v: Verifier, input: Input, domain: string) returns (a: Answer)
    requires v.Valid()
    modifies v.sched
    ensures v.Valid() && v.sched.cache == old(v.sched.cache) && v.sched.view == old(v.sched.view)
    ensures a.workload == input.workload && a.domain == domain
    ensures IsAnswer(v.sched.filter, v.snap, v.key, input, a)
  {
    var fs := Candidates(input);
    var kept, architectural, incomplete := Try(v, input, fs);
    RankOrder();
    var fixes := SortSlice(kept, RankLe);
    KeptRungs(v.sched.filter, v.snap, v.key, input, fs);
    SameRungs(kept, fixes);
    ShowsKept(v.sched.filter, v.snap, v.key, input, fs, kept);
    ListsUnproven(v.sched.filter, v.snap, v.key, input, fs);
    UnprovenAscends(v.sched.filter, v.snap, v.key, input, fs);
    OneArchitectural(input, fs);
    a := Answer(input.workload, domain, incomplete, fixes, architectural);
  }

  lemma ShowsKept(filter: Plugins, s: Snapshot, key: string, input: Input, fs: seq<Fix>, kept: seq<Verified>)
    requires forall f :: f in fs <==> exists k :: 1 <= k <= 8 && Fires(input, k) && f == FixOf(input, k)
    requires kept == Kept(filter, s, key, input, fs)
    ensures Shows(filter, s, key, input, kept)
  {
    forall x ensures x in kept <==>
      exists k :: 1 <= k <= 8 && Fires(input, k) && Keeps(filter, s, key, input, FixOf(input, k))
                  && x == VerifiedOf(filter, s, key, input, FixOf(input, k))
    {
      KeptMembers(filter, s, key, input, fs, x);
    }
  }

  lemma {:induction false} UnprovenAscends(filter: Plugins, s: Snapshot, key: string, input: Input, fs: seq<Fix>)
    requires forall i, j :: 0 <= i < j < |fs| ==> fs[i].rung < fs[j].rung
    ensures Ascending(Unproven(filter, s, key, input, fs))
  {
    if fs != [] {
      var init, last := fs[..|fs| - 1], fs[|fs| - 1];
      UnprovenAscends(filter, s, key, input, init);
      var ns := Unproven(filter, s, key, input, init);
      forall i | 0 <= i < |ns| ensures ns[i] < last.rung {
        assert ns[i] in ns;
        UnprovenMembers(filter, s, key, input, init, ns[i]);
      }
    }
  }

  /** The only architectural finding is rung 8, and it is listed once. */
  lemma OneArchitectural(input: Input, fs: seq<Fix>)
    requires forall f :: f in fs <==> exists k :: 1 <= k <= 8 && Fires(input, k) && f == FixOf(input, k)
    requires forall i, j :: 0 <= i < j < |fs| ==> fs[i].rung < fs[j].rung
    ensures Filter(fs, IsArchitectural()) == if Fires8(input) then [FixOf(input, 8)] else []
  {
    FilterMembers(fs, IsArchitectural());
    var found := Filter(fs, IsArchitectural());
    FilterAscends(fs, IsArchitectural());
    forall i | 0 <= i < |found| ensures found[i] == FixOf(input, 8) && Fires8(input) {
      assert found[i] in found;
    }
    assert |found| < 2 || found[0].rung < found[1].rung;
    assert found == [] || found == [found[0]];
    if Fires8(input) {
      assert Fires(input, 8);
      assert FixOf(input, 8) in found;
    } else {
      assert found == [];
    }
  }

  lemma {:induction false} FilterAscends(fs: seq<Fix>, p: Fix -> bool)
    requires forall i, j :: 0 <= i < j < |fs| ==> fs[i].rung < fs[j].rung
    ensures forall i, j :: 0 <= i < j < |Filter(fs, p)| ==> Filter(fs, p)[i].rung < Filter(fs, p)[j].rung
  {
    if fs != [] {
      var init, last := fs[..|fs| - 1], fs[|fs| - 1];
      FilterAscends(init, p);
      FilterMembers(init, p);
      var kept := Filter(init, p);
      forall i | 0 <= i < |kept| ensures kept[i].rung < last.rung { assert kept[i] in init; }
    }
  }

  lemma ListsUnproven(filter: Plugins, s: Snapshot, key: string, input: Input, fs: seq<Fix>)
    requires forall f :: f in fs <==> exists k :: 1 <= k <= 8 && Fires(input, k) && f == FixOf(input, k)
    ensures forall n: nat :: n in Unproven(filter, s, key, input, fs) <==> Notes(filter, s, key, input, n)
  {
    forall n: nat ensures n in Unproven(filter, s, key, input, fs) <==> Notes(filter, s, key, input, n) {
      UnprovenMembers(filter, s, key, input, fs, n);
    }
  }

  // ---------------------------------------------------------------- the whole run

  predicate Failing(v: Verdict) { v.outcome == Lost || v.outcome == Degraded }

  predicate Wanted(only: seq<string>, ref: Ref) { only == [] || ref.name in only }

  /** The verdicts of one domain that get an answer. */
  function Asked(only: seq<string>): (f: Verdict -> bool) {
    (v: Verdict) => Failing(v) && Wanted(only, v.workload)
  }

  /** The answer to one failing verdict: empty when no template can be read for it. */
  ghost predicate Answers(filter: Plugins, s: Snapshot, key: string, domains: seq<string>, d: string, v: Verdict,
                          a: Answer)
  {
    && a.workload == v.workload && a.domain == d
    && match Find(Controllers(s, v.workload.kind), v.workload)
       case Some(c) => IsAnswer(filter, s, key, InputFor(s, key, domains, v, c), a)
       case None => a.fixes == [] && a.architectural == [] && a.incomplete == []
  }

  ghost predicate AnswersAll(filter: Plugins, s: Snapshot, key: string, domains: seq<string>, d: string,
                             vs: seq<Verdict>, answers: seq<Answer>) {
    Pairwise(AnswerTo(filter, s, key, domains, d), vs, answers)
  }

  ghost function AnswerTo(filter: Plugins, s: Snapshot, key: string, domains: seq<string>, d: string)
    : (p: (Verdict, Answer) -> bool)
  {
    (v: Verdict, a: Answer) => Answers(filter, s, key, domains, d, v, a)
  }

  lemma AnswerAdded(filter: Plugins, s: Snapshot, key: string, domains: seq<string>, d: string, vs: seq<Verdict>,
                    answers: seq<Answer>, v: Verdict, a: Answer)
    requires AnswersAll(filter, s, key, domains, d, vs, answers) && Answers(filter, s, key, domains, d, v, a)
    ensures AnswersAll(filter, s, key, domains, d, vs + [v], answers + [a])
  {
    PairwiseAppend(AnswerTo(filter, s, key, domains, d), vs, answers, v, a);
  }

  method AnswerOne(v: Verifier, domains: seq<string>, budgets: map<Ref, Budget>, verdict: Verdict, d: string)
    returns (a: Answer)
    requires v.Valid()
    requires forall r :: Get(budgets, r) == BudgetFor(IndexOf(v.snap), v.snap.budgets, v.snap.pods, r)
    modifies v.sched
    ensures v.Valid() && v.sched.cache == old(v.sched.cache) && v.sched.view == old(v.sched.view)
    ensures Answers(v.sched.filter, v.snap, v.key, domains, d, verdict, a)
  {
    var idx := NewIndex(v.snap);
    var c := ResolveWorkload(v.snap, verdict.workload);
    if c.None? { return Answer(verdict.workload, d, [], [], []); }
    var input := Input(verdict.workload, verdict.antiAffinity, verdict.pins != [], c.value.template,
                     ReplicaCount(c.value, idx, verdict.workload), v.key, domains, SelectorLabels(c.value),
                     Get(budgets, verdict.workload));
    a := Rank(v, input, d);
  }

  method AnswerDomain(v: Verifier, domains: seq<string>, budgets: map<Ref, Budget>, res: DomainResult,
                      only: seq<string>)
    returns (answers: seq<Answer>)
    requires v.Valid()
    requires forall r :: Get(budgets, r) == BudgetFor(IndexOf(v.snap), v.snap.budgets, v.snap.pods, r)
    modifies v.sched
    ensures v.Valid() && v.sched.cache == old(v.sched.cache) && v.sched.view == old(v.sched.view)
    ensures AnswersDomain(v.sched.filter, v.snap, v.key, domains, res, only, answers)
  {
    answers := [];
    for j := 0 to |res.verdicts|
      invariant v.Valid() && v.sched.cache == old(v.sched.cache) && v.sched.view == old(v.sched.view)
      invariant AnswersAll(v.sched.filter, v.snap, v.key, domains, res.domain,
                           Filter(res.verdicts[..j], Asked(only)), answers)
    {
      FilterStep(res.verdicts, j, Asked(only));
      var verdict := res.verdicts[j];
      if verdict.outcome != Lost && verdict.outcome != Degraded { continue; }
      if !Wanted(only, verdict.workload) { continue; }
      var a := AnswerOne(v, domains, budgets, verdict, res.domain);
      AnswerAdded(v.sched.filter, v.snap, v.key, domains, res.domain, Filter(res.verdicts[..j], Asked(only)), answers,
                  verdict, a);
      answers := answers + [a];
    }
    assert res.verdicts[..|res.verdicts|] == res.verdicts;
  }

  ghost predicate AnswersDomain(filter: Plugins, s: Snapshot, key: string, domains: seq<string>, res: DomainResult,
                                only: seq<string>, block: seq<Answer>) {
    AnswersAll(filter, s, key, domains, res.domain, Filter(res.verdicts, Asked(only)), block)
  }

  ghost function BlockOf(filter: Plugins, s: Snapshot, key: string, domains: seq<string>, only: seq<string>)
    : (p: (DomainResult, seq<Answer>) -> bool)
  {
    (res: DomainResult, block: seq<Answer>) => AnswersDomain(filter, s, key, domains, res, only, block)
  }

  ghost predicate AreBlocks(filter: Plugins, s: Snapshot, key: string, domains: seq<string>, results: seq<DomainResult>,
                            only: seq<string>, blocks: seq<seq<Answer>>) {
    Pairwise(BlockOf(filter, s, key, domains, only), results, blocks)
  }

  lemma BlockAdded(filter: Plugins, s: Snapshot, key: string, domains: seq<string>, results: seq<DomainResult>,
                   only: seq<string>, blocks: seq<seq<Answer>>, block: seq<Answer>)
    requires |blocks| < |results| && AreBlocks(filter, s, key, domains, results[..|blocks|], only, blocks)
    requires AnswersDomain(filter, s, key, domains, results[|blocks|], only, block)
    ensures AreBlocks(filter, s, key, domains, results[..|blocks| + 1], only, blocks + [block])
    ensures Concat(blocks + [block]) == Concat(blocks) + block
  {
    assert (blocks + [block])[..|blocks|] == blocks;
    PairwiseNext(BlockOf(filter, s, key, domains, only), results, blocks, block);
  }

  /** One block of answers per domain of the report, in order. */
  ghost predicate IsRun(filter: Plugins, s: Snapshot, key: string, domains: seq<string>, results: seq<DomainResult>,
                        only: seq<string>, answers: seq<Answer>) {
    exists blocks :: AreBlocks(filter, s, key, domains, results, only, blocks) && answers == Concat(blocks)
  }

  method Analyze(filter: Plugins, s: Snapshot, report: Report, key: string, only: seq<string>,
                 urlHost: DepGraph.UrlHost)
    returns (r: Result<seq<Answer>>, ghost domains: seq<string>)
    requires ProperNodes(s.nodes)
    ensures r.Ok? <==> SchedFacts.Seedable(s.pods)
    ensures r.Ok? ==> Lists(domains, Domain.DomainsOf(s.nodes, key)) && SortedBy(domains, StrLe)
    ensures r.Ok? ==> IsRun(filter, s, key, domains, report.domains, only, r.value)
  {
    var sc := Scheduler.New(s, filter);
    if sc.Err? { return Err, []; }
    var v := new Verifier(sc.value, s, key, urlHost);
    var groups, _ := Domain.Group(s.nodes, key);
    StrOrder();
    var names := SortedElements(groups.Keys, StrLe);
    domains := names;
    var budgets := PdbsByWorkload(s);
    var answers := [];
    ghost var blocks: seq<seq<Answer>> := [];
    for i := 0 to |report.domains|
      invariant fresh(sc.value) && v.Valid()
      invariant v.sched == sc.value && v.snap == s && v.key == key && v.sched.filter == filter
      invariant AreBlocks(filter, s, key, domains, report.domains[..i], only, blocks) && answers == Concat(blocks)
    {
      var block := AnswerDomain(v, names, budgets, report.domains[i], only);
      BlockAdded(filter, s, key, domains, report.domains, only, blocks, block);
      answers, blocks := answers + block, blocks + [block];
    }
    assert report.domains[..|report.domains|] == report.domains;
    r := Ok(answers);
  }
}
