/** internal/depgraph/propagate.go: which workloads a failing dependency impairs. */
module Propagate {
  import opened Basics
  import opened Cluster
  import opened Workload
  import opened DepGraph

  /** One element of a chain: a workload on the way, or the unresolved Service at its end. */
  datatype Link = Via(ref: Ref) | Dangling(service: ServiceKey)

  datatype Impairment = Impairment(workload: Ref, domain: string, chain: seq<Link>)

  // ---------------------------------------------------------------- reachability

  /** `b` serves something `a` depends on. */
  ghost predicate Uses(g: Graph, a: Ref, b: Ref) {
    exists e :: e in Out(g.byFrom, a) && e.kind == Resolved && b in e.backers
  }

  /** `a` itself depends on a Service nobody serves. */
  ghost predicate Dangles(g: Graph, a: Ref) {
    exists e :: e in Out(g.byFrom, a) && e.kind == Unresolved
  }

  ghost predicate IsPath(g: Graph, p: seq<Ref>) {
    p != [] && forall i :: 0 <= i < |p| - 1 ==> Uses(g, p[i], p[i + 1])
  }

  /** A path that ends in a failure: at a workload with a dangling dependency, or after at
      least one step at a failed one. */
  ghost predicate FailingPath(g: Graph, failed: set<Ref>, p: seq<Ref>) {
    IsPath(g, p) && (Dangles(g, p[|p| - 1]) || (|p| >= 2 && p[|p| - 1] in failed))
  }

  ghost predicate CanFail(g: Graph, failed: set<Ref>, r: Ref) {
    exists p :: FailingPath(g, failed, p) && p[0] == r
  }

  /** The one-step reading of CanFail. */
  lemma CanFailStep(g: Graph, failed: set<Ref>, r: Ref)
    ensures CanFail(g, failed, r)
       <==> Dangles(g, r) || exists b :: Uses(g, r, b) && (b in failed || CanFail(g, failed, b))
  {
    if CanFail(g, failed, r) {
      var p :| FailingPath(g, failed, p) && p[0] == r;
      if |p| > 1 {
        assert Uses(g, p[0], p[1]);
        if |p| > 2 || Dangles(g, p[|p| - 1]) {
          var q := p[1..];
          forall i | 0 <= i < |q| - 1 ensures Uses(g, q[i], q[i + 1]) { assert Uses(g, p[i + 1], p[i + 2]); }
          assert FailingPath(g, failed, q) && q[0] == p[1];
        }
      }
    }
    if Dangles(g, r) {
      assert FailingPath(g, failed, [r]) && [r][0] == r;
    }
    if b :| Uses(g, r, b) && (b in failed || CanFail(g, failed, b)) {
      if b in failed {
        assert FailingPath(g, failed, [r, b]) && [r, b][0] == r;
      } else {
        var q :| FailingPath(g, failed, q) && q[0] == b;
        var p := [r] + q;
        forall i | 0 <= i < |p| - 1 ensures Uses(g, p[i], p[i + 1]) {
          if i > 0 { assert Uses(g, q[i - 1], q[i]); }
        }
        assert FailingPath(g, failed, p) && p[0] == r;
      }
    }
  }

  /** More failures never clear anyone. */
  lemma FailMonotone(g: Graph, failed: set<Ref>, more: set<Ref>, r: Ref)
    requires failed <= more && CanFail(g, failed, r)
    ensures CanFail(g, more, r)
  {
    var p :| FailingPath(g, failed, p) && p[0] == r;
    assert FailingPath(g, more, p);
  }

  // ---------------------------------------------------------------- what a chain proves

  /** The chain is a real witness for `r`: it starts there, every step is a backer of a resolved
      edge, it ends at a failed backer or an unresolved Service of its last workload, nothing in
      between has failed, and no workload but the last occurs twice. */
  ghost predicate Witness(g: Graph, failed: set<Ref>, r: Ref, chain: seq<Link>) {
    && |chain| >= 2
    && (forall i :: 0 <= i < |chain| - 1 ==> chain[i].Via?)
    && chain[0] == Via(r)
    && (forall i :: 0 <= i < |chain| - 2 ==> Uses(g, chain[i].ref, chain[i + 1].ref))
    && (forall i :: 0 < i < |chain| - 1 ==> chain[i].ref !in failed)
    && (forall i, j :: 0 <= i < j < |chain| - 1 ==> chain[i] != chain[j])
    && Ends(g, failed, chain[|chain| - 2].ref, chain[|chain| - 1])
  }

  ghost predicate Ends(g: Graph, failed: set<Ref>, a: Ref, last: Link) {
    match last
    case Via(b) => Uses(g, a, b) && b in failed
    case Dangling(k) => exists e :: e in Out(g.byFrom, a) && e.kind == Unresolved && e.service == k
  }

  lemma WitnessFails(g: Graph, failed: set<Ref>, r: Ref, chain: seq<Link>)
    requires Witness(g, failed, r, chain)
    ensures CanFail(g, failed, r)
  {
    var last := chain[|chain| - 1];
    var n := if last.Via? then |chain| else |chain| - 1;
    var p := seq(n, i requires 0 <= i < n => chain[i].ref);
    forall i | 0 <= i < |p| - 1 ensures Uses(g, p[i], p[i + 1]) {
      if i < |chain| - 2 { assert Uses(g, chain[i].ref, chain[i + 1].ref); }
    }
    assert FailingPath(g, failed, p) && p[0] == r;
  }

  /** All but the last element own an edge, so a chain has at most one more element than
      there are workloads with dependencies. */
  lemma ChainBounded(g: Graph, failed: set<Ref>, r: Ref, chain: seq<Link>)
    requires Witness(g, failed, r, chain)
    ensures |chain| <= |g.byFrom.Keys| + 1
  {
    var inner := chain[..|chain| - 1];
    forall i | 0 <= i < |inner| ensures inner[i].Via? && inner[i].ref in g.byFrom {
      if i < |chain| - 2 { assert Uses(g, chain[i].ref, chain[i + 1].ref); }
    }
    DistinctFit(inner, g.byFrom.Keys);
  }

  lemma {:induction false} DistinctFit(links: seq<Link>, refs: set<Ref>)
    requires forall i :: 0 <= i < |links| ==> links[i].Via? && links[i].ref in refs
    requires forall i, j :: 0 <= i < j < |links| ==> links[i] != links[j]
    ensures |links| <= |refs|
  {
    if links != [] {
      var init, last := links[..|links| - 1], links[|links| - 1];
      DistinctFit(init, refs - {last.ref});
    }
  }

  // ---------------------------------------------------------------- the search

  /** The visited map one search shares down its recursion. */
  class Visited {
    var refs: set<Ref>

    constructor ()
      ensures refs == {}
    {
      refs := {};
    }
  }

  /** Nothing wrong with `r` itself, and everything it uses is sound and visited. */
  ghost predicate Cleared(g: Graph, failed: set<Ref>, r: Ref, visited: set<Ref>) {
    !Dangles(g, r) && forall b :: Uses(g, r, b) ==> b !in failed && b in visited
  }

  /** Every visited workload that is no longer on the stack is cleared. */
  ghost predicate Swept(g: Graph, failed: set<Ref>, visited: set<Ref>, stack: set<Ref>) {
    forall r :: r in visited && r !in stack ==> Cleared(g, failed, r, visited)
  }

  /** A region closed under use, with nothing wrong in it, contains no failing path. */
  lemma {:induction false} SweptIsSafe(g: Graph, failed: set<Ref>, visited: set<Ref>, p: seq<Ref>)
    requires Swept(g, failed, visited, {}) && IsPath(g, p) && p[0] in visited
    ensures !FailingPath(g, failed, p)
    ensures p[|p| - 1] in visited && (|p| >= 2 ==> p[|p| - 1] !in failed)
  {
    assert Cleared(g, failed, p[0], visited);
    if |p| > 1 {
      assert Uses(g, p[0], p[1]);
      var q := p[1..];
      forall i | 0 <= i < |q| - 1 ensures Uses(g, q[i], q[i + 1]) { assert Uses(g, p[i + 1], p[i + 2]); }
      SweptIsSafe(g, failed, visited, q);
    }
  }

  /** Every workload the graph mentions: the finite space the search runs in. */
  ghost function Universe(g: Graph): (r: set<Ref>) {
    g.byFrom.Keys + set r, e, b | r in g.byFrom.Keys && e in g.byFrom[r] && b in e.backers :: b
  }

  lemma UsesInUniverse(g: Graph, a: Ref, b: Ref)
    requires Uses(g, a, b)
    ensures a in Universe(g) && b in Universe(g)
  {}

  ghost predicate EdgeCleared(failed: set<Ref>, e: Edge, visited: set<Ref>) {
    e.kind != Unresolved && (e.kind == Resolved ==> forall b :: b in e.backers ==> b !in failed && b in visited)
  }

  /** What a successful search from `r` returns: the path so far, extended by a witness whose
      inner workloads were not visited before. */
  ghost predicate Found(g: Graph, failed: set<Ref>, r: Ref, path: seq<Link>, before: set<Ref>, chain: seq<Link>) {
    && |chain| >= |path| && chain[..|path|] == path
    && Witness(g, failed, r, chain[|path|..])
    && forall i :: |path| <= i < |chain| - 1 ==> chain[i].ref !in before
  }

  lemma FoundHere(g: Graph, failed: set<Ref>, r: Ref, path: seq<Link>, before: set<Ref>, last: Link)
    requires Ends(g, failed, r, last) && r !in before
    ensures Found(g, failed, r, path, before, path + [Via(r)] + [last])
  {
    var chain := path + [Via(r)] + [last];
    assert chain[|path|..] == [Via(r), last];
    assert chain[..|path|] == path;
  }

  lemma WitnessDeeper(g: Graph, failed: set<Ref>, r: Ref, b: Ref, deep: seq<Link>)
    requires Uses(g, r, b) && b !in failed
    requires Witness(g, failed, b, deep)
    requires forall i :: 0 <= i < |deep| - 1 ==> deep[i] != Via(r)
    ensures Witness(g, failed, r, [Via(r)] + deep)
  {
    var whole := [Via(r)] + deep;
    forall i | 0 <= i < |whole| - 2 ensures Uses(g, whole[i].ref, whole[i + 1].ref) {
      if i > 0 { assert Uses(g, deep[i - 1].ref, deep[i].ref); }
    }
    forall i, j | 0 <= i < j < |whole| - 1 ensures whole[i] != whole[j] {
      if i > 0 { assert deep[i - 1] != deep[j - 1]; }
    }
  }

  lemma FoundDeeper(g: Graph, failed: set<Ref>, r: Ref, b: Ref, path: seq<Link>,
                    before: set<Ref>, later: set<Ref>, chain: seq<Link>)
    requires Uses(g, r, b) && b !in failed
    requires r !in before && before + {r} <= later
    requires Found(g, failed, b, path + [Via(r)], later, chain)
    ensures Found(g, failed, r, path, before, chain)
  {
    var n := |path|;
    var cur := path + [Via(r)];
    assert |cur| == n + 1;
    var deep := chain[n + 1..];
    assert chain[..n + 1] == cur;
    assert chain[n] == cur[n];
    assert chain[..n] == path by { assert cur[..n] == path; assert chain[..n + 1][..n] == chain[..n]; }
    assert chain[n..] == [Via(r)] + deep;
    forall i | 0 <= i < |deep| - 1 ensures deep[i] != Via(r) {
      assert deep[i] == chain[n + 1 + i] && chain[n + 1 + i].ref !in later;
    }
    WitnessDeeper(g, failed, r, b, deep);
  }

  method Dfs(g: Graph, ref: Ref, failed: set<Ref>, visited: Visited, path: seq<Link>, ghost stack: set<Ref>)
    returns (found: bool, chain: seq<Link>)
    requires ref in Universe(g) && visited.refs <= Universe(g)
    requires stack <= visited.refs && Swept(g, failed, visited.refs, stack)
    modifies visited
    ensures old(visited.refs) + {ref} <= visited.refs <= Universe(g)
    ensures !found ==> Swept(g, failed, visited.refs, stack)
    ensures found ==> Found(g, failed, ref, path, old(visited.refs), chain)
    decreases Universe(g) - visited.refs
  {
    if ref in visited.refs { return false, []; }
    ghost var before := visited.refs;
    visited.refs := visited.refs + {ref};
    var cur := path + [Via(ref)];
    var edges := Out(g.byFrom, ref);
    for i := 0 to |edges|
      invariant before + {ref} <= visited.refs <= Universe(g)
      invariant Swept(g, failed, visited.refs, stack + {ref})
      invariant forall j :: 0 <= j < i ==> EdgeCleared(failed, edges[j], visited.refs)
    {
      var e := edges[i];
      assert e in edges;
      if e.kind == Unresolved {
        FoundHere(g, failed, ref, path, before, Dangling(e.service));
        return true, cur + [Dangling(e.service)];
      }
      if e.kind == External || e.kind == Unattributable { continue; }
      for j := 0 to |e.backers|
        invariant forall k :: 0 <= k < j ==> e.backers[k] !in failed
      {
        if e.backers[j] in failed {
          assert Uses(g, ref, e.backers[j]);
          FoundHere(g, failed, ref, path, before, Via(e.backers[j]));
          return true, cur + [Via(e.backers[j])];
        }
      }
      ghost var atEdge := visited.refs;
      for j := 0 to |e.backers|
        invariant atEdge <= visited.refs <= Universe(g)
        invariant Swept(g, failed, visited.refs, stack + {ref})
        invariant forall k :: 0 <= k < j ==> e.backers[k] in visited.refs
      {
        assert Uses(g, ref, e.backers[j]);
        UsesInUniverse(g, ref, e.backers[j]);
        ghost var later := visited.refs;
        found, chain := Dfs(g, e.backers[j], failed, visited, cur, stack + {ref});
        if found {
          FoundDeeper(g, failed, ref, e.backers[j], path, before, later, chain);
          return;
        }
      }
    }
    ClearedByEdges(g, failed, ref, visited.refs);
    return false, [];
  }

  lemma ClearedByEdges(g: Graph, failed: set<Ref>, r: Ref, visited: set<Ref>)
    requires forall j :: 0 <= j < |Out(g.byFrom, r)| ==> EdgeCleared(failed, Out(g.byFrom, r)[j], visited)
    ensures Cleared(g, failed, r, visited)
  {
    var edges := Out(g.byFrom, r);
    forall e | e in edges ensures EdgeCleared(failed, e, visited) {
      var j :| 0 <= j < |edges| && edges[j] == e;
    }
  }

  lemma NoFailure(g: Graph, failed: set<Ref>, visited: set<Ref>, r: Ref)
    requires Swept(g, failed, visited, {}) && r in visited
    ensures !CanFail(g, failed, r)
  {
    if CanFail(g, failed, r) {
      var p :| FailingPath(g, failed, p) && p[0] == r;
      SweptIsSafe(g, failed, visited, p);
    }
  }

  /** A fresh search answers for one workload. */
  method Search(g: Graph, ref: Ref, failed: set<Ref>) returns (found: bool, chain: seq<Link>)
    requires ref in g.byFrom
    ensures found <==> CanFail(g, failed, ref)
    ensures found ==> Witness(g, failed, ref, chain)
  {
    var visited := new Visited();
    found, chain := Dfs(g, ref, failed, visited, [], {});
    if found {
      assert chain[0..] == chain;
      WitnessFails(g, failed, ref, chain);
    } else {
      NoFailure(g, failed, visited.refs, ref);
    }
  }

  ghost predicate Impairs(g: Graph, lostOrUnknown: set<Ref>, ownLost: set<Ref>, r: Ref) {
    r !in ownLost && CanFail(g, lostOrUnknown, r)
  }

  ghost predicate Sound(g: Graph, domain: string, lostOrUnknown: set<Ref>, ownLost: set<Ref>, out: seq<Impairment>) {
    forall i :: 0 <= i < |out| ==>
      && out[i].domain == domain
      && out[i].workload in g.byFrom
      && Impairs(g, lostOrUnknown, ownLost, out[i].workload)
      && Witness(g, lostOrUnknown, out[i].workload, out[i].chain)
  }

  ghost predicate Reports(out: seq<Impairment>, r: Ref) {
    exists i :: 0 <= i < |out| && out[i].workload == r
  }

  ghost predicate InOrder(out: seq<Impairment>) {
    forall i, j :: 0 <= i < j < |out| ==>
      out[i].workload != out[j].workload && RefLe(out[i].workload, out[j].workload)
  }

  /** Exactly the workloads with dependencies that are not lost themselves and from which a
      failing path leads away are reported: once each, in name order, each with a witness. */
  ghost predicate IsImpaired(g: Graph, domain: string, lostOrUnknown: set<Ref>, ownLost: set<Ref>,
                             out: seq<Impairment>)
  {
    && Sound(g, domain, lostOrUnknown, ownLost, out)
    && (forall r :: r in g.byFrom && Impairs(g, lostOrUnknown, ownLost, r) ==> Reports(out, r))
    && InOrder(out)
  }

  /** The reports on the first `i` workloads of `refs`. */
  ghost predicate ReportedUpTo(g: Graph, domain: string, lostOrUnknown: set<Ref>, ownLost: set<Ref>, refs: seq<Ref>,
                               i: nat, out: seq<Impairment>)
    requires i <= |refs|
  {
    && Sound(g, domain, lostOrUnknown, ownLost, out)
    && (forall k :: 0 <= k < |out| ==> out[k].workload in refs[..i])
    && (forall j :: 0 <= j < i && Impairs(g, lostOrUnknown, ownLost, refs[j]) ==> Reports(out, refs[j]))
    && InOrder(out)
  }

  method Impaired(g: Graph, domain: string, lostOrUnknown: set<Ref>, ownLost: set<Ref>) returns (out: seq<Impairment>)
    ensures IsImpaired(g, domain, lostOrUnknown, ownLost, out)
  {
    RefOrder();
    var refs := SortedElements(g.byFrom.Keys, RefLe);
    out := [];
    for i := 0 to |refs|
      invariant ReportedUpTo(g, domain, lostOrUnknown, ownLost, refs, i, out)
    {
      assert refs[i] in refs;
      if refs[i] in ownLost {
        SkipReport(g, domain, lostOrUnknown, ownLost, refs, i, out);
        continue;
      }
      var found, chain := Search(g, refs[i], lostOrUnknown);
      if found {
        AddReport(g, domain, lostOrUnknown, ownLost, refs, i, out, chain);
        out := out + [Impairment(refs[i], domain, chain)];
      } else {
        SkipReport(g, domain, lostOrUnknown, ownLost, refs, i, out);
      }
    }
  }

  lemma SkipReport(g: Graph, domain: string, lostOrUnknown: set<Ref>, ownLost: set<Ref>, refs: seq<Ref>, i: nat,
                   out: seq<Impairment>)
    requires i < |refs| && ReportedUpTo(g, domain, lostOrUnknown, ownLost, refs, i, out)
    requires !Impairs(g, lostOrUnknown, ownLost, refs[i])
    ensures ReportedUpTo(g, domain, lostOrUnknown, ownLost, refs, i + 1, out)
  {
    assert refs[..i + 1] == refs[..i] + [refs[i]];
  }

  lemma AddReport(g: Graph, domain: string, lostOrUnknown: set<Ref>, ownLost: set<Ref>, refs: seq<Ref>, i: nat,
                  out: seq<Impairment>, chain: seq<Link>)
    requires i < |refs| && ReportedUpTo(g, domain, lostOrUnknown, ownLost, refs, i, out)
    requires SortedBy(refs, RefLe) && forall a, b :: 0 <= a < b < |refs| ==> refs[a] != refs[b]
    requires refs[i] in g.byFrom && Impairs(g, lostOrUnknown, ownLost, refs[i])
    requires Witness(g, lostOrUnknown, refs[i], chain)
    ensures ReportedUpTo(g, domain, lostOrUnknown, ownLost, refs, i + 1, out + [Impairment(refs[i], domain, chain)])
  {
    assert refs[..i + 1] == refs[..i] + [refs[i]];
    AppendReport(refs, i, out, Impairment(refs[i], domain, chain));
  }

  lemma AppendReport(refs: seq<Ref>, i: nat, out: seq<Impairment>, imp: Impairment)
    requires i < |refs| && imp.workload == refs[i]
    requires SortedBy(refs, RefLe) && forall a, b :: 0 <= a < b < |refs| ==> refs[a] != refs[b]
    requires InOrder(out) && forall k :: 0 <= k < |out| ==> out[k].workload in refs[..i]
    ensures InOrder(out + [imp])
    ensures forall r :: Reports(out + [imp], r) <==> Reports(out, r) || r == refs[i]
  {
    var longer := out + [imp];
    assert longer[|out|] == imp;
    forall r | Reports(out, r) ensures Reports(longer, r) {
      var k :| 0 <= k < |out| && out[k].workload == r;
      assert longer[k] == out[k];
    }
    forall k | 0 <= k < |out| ensures out[k].workload != refs[i] && RefLe(out[k].workload, refs[i]) {
      var j :| 0 <= j < i && refs[..i][j] == out[k].workload;
    }
  }
}
