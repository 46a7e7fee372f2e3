/** What the fix command's output is worth, over the whole run. */
module RankFacts {
  import opened Basics
  import opened Cluster
  import opened Workload
  import opened Ladder
  import opened Sched
  import opened Survive
  import opened Verify
  import opened Rank
  import SchedFacts
  import SurviveFacts
  import VerifyFacts
  import PdbCheck
  import Domain
  import DepGraph

  // ---------------------------------------------------------------- one answer only

  lemma SameInit<T>(xs: seq<T>, ys: seq<T>, all: seq<T>, every: seq<T>, last: T)
    requires all == xs + [last] && every == ys + [last]
    requires last !in xs && last !in ys
    requires forall x :: x in all <==> x in every
    ensures forall x :: x in xs <==> x in ys
  {
    assert forall x :: x in xs ==> x in all;
    assert forall x :: x in ys ==> x in every;
  }

  lemma {:induction false} RankedUnique(xs: seq<Verified>, ys: seq<Verified>)
    requires Ranked(xs) && Ranked(ys) && forall x :: x in xs <==> x in ys
    ensures xs == ys
  {
    assert ys == [] || ys[0] in ys;
    if xs != [] {
      assert xs[0] in ys;
      var a, b := xs[|xs| - 1], ys[|ys| - 1];
      assert a in ys && b in xs;
      assert xs == xs[..|xs| - 1] + [a] && ys == ys[..|ys| - 1] + [b];
      SameInit(xs[..|xs| - 1], ys[..|ys| - 1], xs, ys, a);
      RankedUnique(xs[..|xs| - 1], ys[..|ys| - 1]);
    }
  }

  lemma {:induction false} AscendingUnique(xs: seq<nat>, ys: seq<nat>)
    requires Ascending(xs) && Ascending(ys) && forall n :: n in xs <==> n in ys
    ensures xs == ys
  {
    assert ys == [] || ys[0] in ys;
    if xs != [] {
      assert xs[0] in ys;
      var a, b := xs[|xs| - 1], ys[|ys| - 1];
      assert a in ys && b in xs;
      assert xs == xs[..|xs| - 1] + [a] && ys == ys[..|ys| - 1] + [b];
      SameInit(xs[..|xs| - 1], ys[..|ys| - 1], xs, ys, a);
      AscendingUnique(xs[..|xs| - 1], ys[..|ys| - 1]);
    }
  }

  /** Nothing in an answer depends on the order of the checks, or on what was verified before:
      the plugins, the snapshot and the question determine it. */
  lemma AnswerDetermined(filter: Plugins, s: Snapshot, key: string, domains: seq<string>, d: string, v: Verdict,
                         a: Answer, b: Answer)
    requires Answers(filter, s, key, domains, d, v, a) && Answers(filter, s, key, domains, d, v, b)
    ensures a == b
  {
    match Find(Controllers(s, v.workload.kind), v.workload)
    case None =>
    case Some(c) =>
      RankedUnique(a.fixes, b.fixes);
      AscendingUnique(a.incomplete, b.incomplete);
  }

  lemma BlockDetermined(filter: Plugins, s: Snapshot, key: string, domains: seq<string>, res: DomainResult,
                        only: seq<string>, a: seq<Answer>, b: seq<Answer>)
    requires AnswersDomain(filter, s, key, domains, res, only, a) &&
      AnswersDomain(filter, s, key, domains, res, only, b)
    ensures a == b
  {
    var vs := Filter(res.verdicts, Asked(only));
    forall i | 0 <= i < |vs| ensures a[i] == b[i] {
      assert AnswerTo(filter, s, key, domains, res.domain)(vs[i], a[i]);
      assert AnswerTo(filter, s, key, domains, res.domain)(vs[i], b[i]);
      AnswerDetermined(filter, s, key, domains, res.domain, vs[i], a[i], b[i]);
    }
  }

  /** So does the whole run: one report, one list of answers. */
  lemma RunDetermined(filter: Plugins, s: Snapshot, key: string, domains: seq<string>,
                      results: seq<DomainResult>, only: seq<string>, a: seq<Answer>, b: seq<Answer>)
    requires IsRun(filter, s, key, domains, results, only, a) && IsRun(filter, s, key, domains, results, only, b)
    ensures a == b
  {
    var xs :| AreBlocks(filter, s, key, domains, results, only, xs) && a == Concat(xs);
    var ys :| AreBlocks(filter, s, key, domains, results, only, ys) && b == Concat(ys);
    forall i | 0 <= i < |results| ensures xs[i] == ys[i] {
      assert BlockOf(filter, s, key, domains, only)(results[i], xs[i]);
      assert BlockOf(filter, s, key, domains, only)(results[i], ys[i]);
      BlockDetermined(filter, s, key, domains, results[i], only, xs[i], ys[i]);
    }
    assert xs == ys;
  }

  // ---------------------------------------------------------------- nobody is forgotten

  /** The report calls for this answer. */
  ghost predicate CalledFor(filter: Plugins, s: Snapshot, key: string, domains: seq<string>, res: DomainResult,
                            only: seq<string>, v: Verdict, a: Answer) {
    && v in res.verdicts && Failing(v) && Wanted(only, v.workload)
    && Answers(filter, s, key, domains, res.domain, v, a)
  }

  lemma BlockAnswers(filter: Plugins, s: Snapshot, key: string, domains: seq<string>, res: DomainResult,
                     only: seq<string>, block: seq<Answer>, v: Verdict) returns (a: Answer)
    requires AnswersDomain(filter, s, key, domains, res, only, block)
    requires v in res.verdicts && Failing(v) && Wanted(only, v.workload)
    ensures a in block && CalledFor(filter, s, key, domains, res, only, v, a)
  {
    FilterMembers(res.verdicts, Asked(only));
    var vs := Filter(res.verdicts, Asked(only));
    var k :| 0 <= k < |vs| && vs[k] == v;
    a := block[k];
    assert AnswerTo(filter, s, key, domains, res.domain)(vs[k], block[k]);
  }

  /** Every lost or degraded verdict that was asked about has its answer. */
  lemma EveryFailureAnswered(filter: Plugins, s: Snapshot, key: string, domains: seq<string>,
                             results: seq<DomainResult>,
                             only: seq<string>, answers: seq<Answer>, i: nat, v: Verdict) returns (a: Answer)
    requires IsRun(filter, s, key, domains, results, only, answers)
    requires i < |results| && v in results[i].verdicts && Failing(v) && Wanted(only, v.workload)
    ensures a in answers && CalledFor(filter, s, key, domains, results[i], only, v, a)
  {
    var blocks :| AreBlocks(filter, s, key, domains, results, only, blocks) && answers == Concat(blocks);
    assert BlockOf(filter, s, key, domains, only)(results[i], blocks[i]);
    a := BlockAnswers(filter, s, key, domains, results[i], only, blocks[i], v);
    ConcatMembers(blocks, a);
  }

  /** And no answer comes from anywhere else. */
  lemma EveryAnswerCalledFor(filter: Plugins, s: Snapshot, key: string, domains: seq<string>,
                             results: seq<DomainResult>,
                             only: seq<string>, answers: seq<Answer>, a: Answer) returns (i: nat, v: Verdict)
    requires IsRun(filter, s, key, domains, results, only, answers) && a in answers
    ensures i < |results| && CalledFor(filter, s, key, domains, results[i], only, v, a)
  {
    var blocks :| AreBlocks(filter, s, key, domains, results, only, blocks) && answers == Concat(blocks);
    ConcatMembers(blocks, a);
    i :| 0 <= i < |blocks| && a in blocks[i];
    assert BlockOf(filter, s, key, domains, only)(results[i], blocks[i]);
    v := AnswerSource(filter, s, key, domains, results[i], only, blocks[i], a);
  }

  lemma AnswerSource(filter: Plugins, s: Snapshot, key: string, domains: seq<string>, res: DomainResult,
                     only: seq<string>, block: seq<Answer>, a: Answer) returns (v: Verdict)
    requires AnswersDomain(filter, s, key, domains, res, only, block) && a in block
    ensures CalledFor(filter, s, key, domains, res, only, v, a)
  {
    FilterMembers(res.verdicts, Asked(only));
    var vs := Filter(res.verdicts, Asked(only));
    var k :| 0 <= k < |block| && block[k] == a;
    v := vs[k];
    assert v in vs && AnswerTo(filter, s, key, domains, res.domain)(vs[k], block[k]);
  }

  // ---------------------------------------------------------------- what FIX and ALT mean

  lemma {:induction false} FindNames(cs: seq<Controller>, ref: Ref)
    requires Find(cs, ref).Some?
    ensures Find(cs, ref).value in cs
    ensures Find(cs, ref).value.namespace == ref.namespace && Find(cs, ref).value.name == ref.name
  {
    if !(cs[0].namespace == ref.namespace && cs[0].name == ref.name) { FindNames(cs[1..], ref); }
  }

  /** A workload a template can be read for is always grouped back with its replicas, so the
      survivability proof is never empty for anything the command prints. */
  lemma ReadableResolves(s: Snapshot, ref: Ref)
    requires Find(Controllers(s, ref.kind), ref).Some?
    ensures VerifyFacts.Resolves(IndexOf(s), ref)
  {
    FindNames(Controllers(s, ref.kind), ref);
  }

  /** FIX: every replica is on the first node the plugins accept for it, and whichever domain of the
      cluster is lost afterwards, one of them stands on a labelled node elsewhere and can stay there. */
  lemma ShownFixSurvives(filter: Plugins, s: Snapshot, key: string, domains: seq<string>, d: string, v: Verdict,
                         a: Answer, x: Verified, e: string) returns (input: Input, i: nat)
    requires Answers(filter, s, key, domains, d, v, a) && x in a.fixes && !x.partial
    requires e in Domain.DomainsOf(s.nodes, key)
    ensures Find(Controllers(s, v.workload.kind), v.workload).Some?
    ensures input == InputFor(s, key, domains, v, Find(Controllers(s, v.workload.kind), v.workload).value)
    ensures TargetReplicas(input, x.fix) > 0 &&
      |VerifyFacts.Placed(filter, s, key, input, x.fix)| == TargetReplicas(input, x.fix)
    ensures var job, t := JobOf(filter, s, key, input, x.fix), Mutated(input.template, x.fix.mutation);
      var nodes := VerifyFacts.Placed(filter, s, key, input, x.fix);
      && VerifyFacts.EachFirstAccepted(job, nodes)
      && VerifyFacts.KeepsAlive(VerifyFacts.After(filter, s, key, input, x.fix), key, t, v.workload, nodes, i, e)
  {
    var c := Find(Controllers(s, v.workload.kind), v.workload).value;
    input := InputFor(s, key, domains, v, c);
    ReadableResolves(s, v.workload);
    i := VerifyFacts.ProvenFix(filter, s, key, input, x.fix, e);
  }

  /** Which of the two a shown fix is, in closed form: FIX exactly when its replicas are on labelled
      nodes, not all in one domain, its claims pin it nowhere and its budget can be read. */
  lemma ShownFixIff(filter: Plugins, s: Snapshot, key: string, domains: seq<string>, d: string, v: Verdict,
                    a: Answer, x: Verified) returns (input: Input)
    requires Answers(filter, s, key, domains, d, v, a) && x in a.fixes && Domain.DomainsOf(s.nodes, key) != {}
    ensures Find(Controllers(s, v.workload.kind), v.workload).Some?
    ensures input == InputFor(s, key, domains, v, Find(Controllers(s, v.workload.kind), v.workload).value)
    ensures TargetReplicas(input, x.fix) > 0
    ensures var placed := VerifyFacts.Placed(filter, s, key, input, x.fix);
      !x.partial <==>
      && VerifyFacts.AllLabelled(s, key, placed) && VerifyFacts.Apart(s.nodes, key, placed)
      && VerifyFacts.CanServe(filter, s, key, input, x.fix)
  {
    input := InputFor(s, key, domains, v, Find(Controllers(s, v.workload.kind), v.workload).value);
    ReadableResolves(s, v.workload);
    SchedFacts.Accounting(JobOf(filter, s, key, input, x.fix), TargetReplicas(input, x.fix));
    VerifyFacts.ServingIff(s, key, input, x.fix, Mutated(input.template, x.fix.mutation),
                           VerifyFacts.Placed(filter, s, key, input, x.fix));
  }

  /** ALT: every replica still has a node, but the loss of some domain would not be withstood. */
  lemma ShownAlternativeFails(filter: Plugins, s: Snapshot, key: string, domains: seq<string>, d: string, v: Verdict,
                              a: Answer, x: Verified) returns (input: Input, e: string)
    requires Answers(filter, s, key, domains, d, v, a) && x in a.fixes && x.partial
    ensures Find(Controllers(s, v.workload.kind), v.workload).Some?
    ensures input == InputFor(s, key, domains, v, Find(Controllers(s, v.workload.kind), v.workload).value)
    ensures TargetReplicas(input, x.fix) > 0 &&
      |VerifyFacts.Placed(filter, s, key, input, x.fix)| == TargetReplicas(input, x.fix)
    ensures e in Domain.DomainsOf(s.nodes, key)
    ensures !VerifyFacts.Withstands(VerifyFacts.After(filter, s, key, input, x.fix), key,
                                    Mutated(input.template, x.fix.mutation), v.workload,
                                    VerifyFacts.Placed(filter, s, key, input, x.fix), e)
  {
    var c := Find(Controllers(s, v.workload.kind), v.workload).value;
    input := InputFor(s, key, domains, v, c);
    ReadableResolves(s, v.workload);
    var job := JobOf(filter, s, key, input, x.fix);
    SchedFacts.Accounting(job, TargetReplicas(input, x.fix));
    var t, nodes := Mutated(input.template, x.fix.mutation), VerifyFacts.Placed(filter, s, key, input, x.fix);
    VerifyFacts.ServingExactly(s, key, input, x.fix, t, nodes);
    e :| e in Domain.DomainsOf(s.nodes, key)
      && !VerifyFacts.Withstands(VerifyFacts.After(filter, s, key, input, x.fix), key, t, v.workload, nodes, e);
  }

  /** The workload as it is: no change at all. */
  const AS_IS := Fix(0, Nothing, 0, false, false)

  /** A budget rung is shown as FIX exactly when rescheduling the unchanged workload would
      already make it survive: changing the budget contributes nothing to that. */
  lemma BudgetRungsMoveNothing(filter: Plugins, s: Snapshot, key: string, input: Input, a: Answer, x: Verified)
    requires IsAnswer(filter, s, key, input, a) && x in a.fixes && IsPdbRung(x.fix.rung)
    requires PdbCheck.Parseable(s.budgets)
    requires input.budget.Some? ==> !input.budget.value.selector.Unparseable?
    ensures AllPlaced(JobOf(filter, s, key, input, AS_IS), input.replicas)
    ensures x.partial <==> !Serving(VerifyFacts.After(filter, s, key, input, AS_IS), key, input.workload)
  {
    var k :| 1 <= k <= 8 && Fires(input, k) && Keeps(filter, s, key, input, FixOf(input, k))
          && x == VerifiedOf(filter, s, key, input, FixOf(input, k));
    var job := JobOf(filter, s, key, input, AS_IS);
    assert JobOf(filter, s, key, input, x.fix) == job;
    VerifyFacts.BudgetRungsChangeNothing(s, key, input, x.fix, AS_IS, Mutated(input.template, Nothing),
                                         job.Outcome(input.replicas).nodes);
  }

  // ---------------------------------------------------------------- from the snapshot to the answer

  /** The whole chain: a workload that counting its pods calls lost with `d` gets an answer for `d`. */
  lemma LostIsAnswered(filter: Plugins, s: Snapshot, key: string, urlHost: DepGraph.UrlHost, g: DepGraph.Graph,
                       refs: seq<Ref>, report: Report, domains: seq<string>, answers: seq<Answer>, r: Ref, d: string)
    returns (a: Answer)
    requires IsReport(s, IndexOf(s), key, urlHost, g, refs, report)
    requires IsRun(filter, s, key, domains, report.domains, [], answers)
    requires d in Domain.DomainsOf(s.nodes, key) && SurviveFacts.IsOutcome(s, key, r, d, Lost)
    ensures a in answers && a.workload == r && a.domain == d
  {
    var i := SurviveFacts.DomainRow(s, key, report, d);
    var j := SurviveFacts.ReportComplete(s, key, urlHost, g, refs, report, i, r);
    a := EveryFailureAnswered(filter, s, key, domains, report.domains, [], answers, i, report.domains[i].verdicts[j]);
  }
}
