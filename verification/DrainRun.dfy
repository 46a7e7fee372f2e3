/** A drain as a state machine. A Ready pod the budget covers is evicted only while the budget
    can spare it; its replacement binds only to a node outside the cordoned domain that the
    plugins accept; pods gain and lose readiness at any time. */
module DrainRun {
  import opened Basics
  import opened Cluster
  import opened Sched
  import DrainCheck
  import Domain

  /** The drain of `domain` under a budget that keeps `need` pods healthy. */
  datatype Drain = Drain(filter: Plugins, nodes: seq<Node>, key: string, domain: string, need: int)

  /** `members` are the covered pods on nodes, `pending` the replacements that have none yet. */
  datatype State = State(view: View, members: set<string>, ready: set<string>,
                         pending: map<string, Pod>, evictions: nat)

  datatype Step =
    | Evict(uid: string, name: string, newUid: string)
    | Bind(uid: string, node: nat)
    | Wake(uid: string)
    | Sleep(uid: string)

  // ---------------------------------------------------------------- steps

  predicate InDomain(c: Drain, s: State, u: string) {
    u in s.view && Domain.DomainOfName(c.nodes, c.key, s.view[u].spec.nodeName) == c.domain
  }

  predicate Enabled(c: Drain, s: State, t: Step) {
    match t
    case Evict(u, _, newUid) =>
      u in s.ready && InDomain(c, s, u) && |s.ready| - c.need >= 1 && newUid !in s.view - {u} && newUid !in s.pending
    case Bind(u, i) =>
      u in s.pending && i < |c.nodes| && Domain.Of(c.nodes[i], c.key) != Some(c.domain)
      && c.filter.admits(s.view, s.pending[u]) && c.filter.accepts(s.view, s.pending[u], c.nodes[i])
    case Wake(u) => u in s.members
    case Sleep(u) => u in s.ready
  }

  function Replacement(victim: Pod, name: string, newUid: string): (r: Pod) {
    DrainCheck.Candidate(victim).(name := name, uid := newUid)
  }

  function Do(c: Drain, s: State, t: Step): (r: State)
    requires Enabled(c, s, t)
  {
    match t
    case Evict(u, name, newUid) =>
      State(s.view - {u}, s.members - {u}, s.ready - {u},
            s.pending[newUid := Replacement(s.view[u], name, newUid)], s.evictions + 1)
    case Bind(u, i) =>
      var p := s.pending[u];
      s.(view := s.view[u := p.(spec := p.spec.(nodeName := c.nodes[i].name), phase := Running)],
         members := s.members + {u}, pending := s.pending - {u})
    case Wake(u) => s.(ready := s.ready + {u})
    case Sleep(u) => s.(ready := s.ready - {u})
  }

  ghost predicate CanRun(c: Drain, s: State, ts: seq<Step>)
    decreases |ts|
  {
    ts == [] || (Enabled(c, s, ts[0]) && CanRun(c, Do(c, s, ts[0]), ts[1..]))
  }

  ghost function EndOf(c: Drain, s: State, ts: seq<Step>): (r: State)
    requires CanRun(c, s, ts)
    decreases |ts|
  {
    if ts == [] then s else EndOf(c, Do(c, s, ts[0]), ts[1..])
  }

  /** Some run evicts another pod. */
  ghost predicate EvictsAgain(c: Drain, s: State) {
    exists ts :: CanRun(c, s, ts) && EndOf(c, s, ts).evictions > s.evictions
  }

  // ---------------------------------------------------------------- what every step keeps

  ghost predicate Sane(s: State) {
    s.ready <= s.members && s.members <= s.view.Keys && s.pending.Keys !! s.view.Keys
  }

  /** The covered pods, placed and waiting. */
  ghost function Population(s: State): (r: nat) { |s.members| + |s.pending| }

  lemma EvictConserves(c: Drain, s: State, u: string, name: string, newUid: string)
    requires Sane(s) && Enabled(c, s, Evict(u, name, newUid))
    ensures Sane(Do(c, s, Evict(u, name, newUid))) && Population(Do(c, s, Evict(u, name, newUid))) == Population(s)
  {
    var s' := Do(c, s, Evict(u, name, newUid));
    assert s'.pending.Keys == s.pending.Keys + {newUid};
    assert |s'.pending.Keys| == |s.pending.Keys| + 1;
  }

  lemma BindConserves(c: Drain, s: State, u: string, i: nat)
    requires Sane(s) && Enabled(c, s, Bind(u, i))
    ensures Sane(Do(c, s, Bind(u, i))) && Population(Do(c, s, Bind(u, i))) == Population(s)
  {
    var s' := Do(c, s, Bind(u, i));
    assert s'.pending.Keys == s.pending.Keys - {u};
    assert |s'.pending.Keys| == |s.pending.Keys| - 1;
    assert u !in s.members;
  }

  /** The controller replaces what was evicted, and nothing else: the population is conserved. */
  lemma StepConserves(c: Drain, s: State, t: Step)
    requires Sane(s) && Enabled(c, s, t)
    ensures Sane(Do(c, s, t)) && Population(Do(c, s, t)) == Population(s)
  {
    match t
    case Evict(u, name, newUid) => EvictConserves(c, s, u, name, newUid);
    case Bind(u, i) => BindConserves(c, s, u, i);
    case Wake(_) =>
    case Sleep(_) =>
  }

  lemma {:induction false} RunConserves(c: Drain, s: State, ts: seq<Step>)
    requires Sane(s) && CanRun(c, s, ts)
    ensures Sane(EndOf(c, s, ts)) && Population(EndOf(c, s, ts)) == Population(s)
    ensures |EndOf(c, s, ts).ready| + |EndOf(c, s, ts).pending| <= Population(s)
    decreases |ts|
  {
    if ts == [] {
      SubsetSize(s.ready, s.members);
    } else {
      StepConserves(c, s, ts[0]);
      RunConserves(c, Do(c, s, ts[0]), ts[1..]);
    }
  }

  // ---------------------------------------------------------------- when the drain can go on

  /** No waiting replacement has anywhere to go. */
  ghost predicate Stuck(c: Drain, s: State) {
    forall u, i :: u in s.pending && 0 <= i < |c.nodes| && c.filter.accepts(s.view, s.pending[u], c.nodes[i]) ==>
      Domain.Of(c.nodes[i], c.key) == Some(c.domain)
  }

  ghost predicate Spare(c: Drain, s: State) {
    |s.members| > c.need && exists u :: u in s.members && InDomain(c, s, u)
  }

  /** While stuck, only readiness changes until the next eviction. */
  lemma {:induction false} EvictionNeedsSpare(c: Drain, s: State, ts: seq<Step>)
    requires Sane(s) && Stuck(c, s) && CanRun(c, s, ts) && EndOf(c, s, ts).evictions > s.evictions
    ensures Spare(c, s)
    decreases |ts|
  {
    var s' := Do(c, s, ts[0]);
    match ts[0]
    case Evict(u, _, _) => SubsetSize(s.ready, s.members);
    case Bind(u, i) => assert false;
    case Wake(u) => EvictionNeedsSpare(c, s', ts[1..]);
    case Sleep(u) => EvictionNeedsSpare(c, s', ts[1..]);
  }

  lemma {:induction false} WakeThen(c: Drain, s: State, todo: set<string>, last: Step) returns (ts: seq<Step>)
    requires Sane(s) && todo <= s.members && Enabled(c, s.(ready := s.ready + todo), last)
    ensures CanRun(c, s, ts) && EndOf(c, s, ts) == Do(c, s.(ready := s.ready + todo), last)
    decreases todo
  {
    if todo == {} {
      assert s.ready + todo == s.ready;
      ts := [last];
      assert ts[1..] == [];
    } else {
      var x :| x in todo;
      var s' := Do(c, s, Wake(x));
      assert s'.ready + (todo - {x}) == s.ready + todo;
      var rest := WakeThen(c, s', todo - {x}, last);
      ts := [Wake(x)] + rest;
      assert ts[1..] == rest;
    }
  }

  /** A stuck drain evicts again in some run exactly when more covered pods are placed than the
      budget keeps, and one of them is in the domain being drained. */
  lemma EvictsAgainIff(c: Drain, s: State)
    requires Sane(s) && Stuck(c, s)
    ensures EvictsAgain(c, s) <==> Spare(c, s)
  {
    if EvictsAgain(c, s) {
      var ts :| CanRun(c, s, ts) && EndOf(c, s, ts).evictions > s.evictions;
      EvictionNeedsSpare(c, s, ts);
    }
    if Spare(c, s) {
      var u :| u in s.members && InDomain(c, s, u);
      assert s.ready + s.members == s.members;
      var ts := WakeThen(c, s, s.members, Evict(u, "", u));
    }
  }

  /** And until then the replacements wait: a stuck drain without spare pods stays as it is. */
  lemma {:induction false} StuckForever(c: Drain, s: State, ts: seq<Step>)
    requires Sane(s) && Stuck(c, s) && !Spare(c, s) && CanRun(c, s, ts)
    ensures EndOf(c, s, ts) == s.(ready := EndOf(c, s, ts).ready)
    decreases |ts|
  {
    if ts != [] {
      var s' := Do(c, s, ts[0]);
      match ts[0]
      case Evict(u, _, _) => SubsetSize(s.ready, s.members); assert false;
      case Bind(u, i) => assert false;
      case Wake(u) => StuckForever(c, s', ts[1..]);
      case Sleep(u) => StuckForever(c, s', ts[1..]);
    }
  }
}
