/** internal/depgraph: the workload dependency graph and its construction. */
module DepGraph {
  import opened Basics
  import opened Cluster
  import opened Workload
  import opened Match

  datatype EdgeKind = Resolved | Unresolved | External | Unattributable

  datatype Edge = Edge(from: Ref, service: ServiceKey, backers: seq<Ref>, kind: EdgeKind)

  datatype Graph = Graph(edges: seq<Edge>, byFrom: map<Ref, seq<Edge>>)

  type UrlHost = string -> Option<string>

  // ---------------------------------------------------------------- who backs a Service

  function PodKey(): (f: Pod -> string) { (p: Pod) => p.Key() }

  /** The workload behind one endpoint. */
  function TargetOwner(s: Snapshot, idx: Index, t: Target): (r: Option<Ref>) {
    var pods := IndexBy(s.pods, PodKey());
    if t.NoTarget? || t.kind != "Pod" || t.namespace + "/" + t.name !in pods then None
    else Some(RefOf(idx, pods[t.namespace + "/" + t.name]))
  }

  function Owners(s: Snapshot, idx: Index, targets: seq<Target>): (r: set<Ref>) {
    if targets == [] then {}
    else
      var rest := Owners(s, idx, targets[..|targets| - 1]);
      match TargetOwner(s, idx, targets[|targets| - 1])
      case Some(r) => rest + {r}
      case None => rest
  }

  predicate SliceOf(es: EndpointSlice, key: ServiceKey) {
    es.service != "" && key == ServiceKey(es.namespace, es.service)
  }

  function Backing(s: Snapshot, idx: Index, slices: seq<EndpointSlice>, key: ServiceKey): (r: set<Ref>) {
    if slices == [] then {}
    else
      var es := slices[|slices| - 1];
      var rest := Backing(s, idx, slices[..|slices| - 1], key);
      if SliceOf(es, key) then rest + Owners(s, idx, es.targets) else rest
  }

  lemma {:induction false} OwnersMembers(s: Snapshot, idx: Index, targets: seq<Target>, r: Ref)
    ensures r in Owners(s, idx, targets)
       <==> exists i :: 0 <= i < |targets| && TargetOwner(s, idx, targets[i]) == Some(r)
  {
    if targets != [] {
      var init, last := targets[..|targets| - 1], targets[|targets| - 1];
      assert targets == init + [last];
      OwnersMembers(s, idx, init, r);
      if r in Owners(s, idx, init) {
        var i :| 0 <= i < |init| && TargetOwner(s, idx, init[i]) == Some(r);
        assert targets[i] == init[i];
      }
      if TargetOwner(s, idx, last) == Some(r) { assert targets[|targets| - 1] == last; }
    }
  }

  /** EndpointSlice truth: a workload backs a Service iff one of the Service's slices has an
      endpoint whose Pod target is one of that workload's pods. */
  lemma {:induction false} BackingMembers(s: Snapshot, idx: Index, slices: seq<EndpointSlice>, key: ServiceKey, r: Ref)
    ensures r in Backing(s, idx, slices, key)
       <==> exists i, j :: 0 <= i < |slices| && SliceOf(slices[i], key)
              && 0 <= j < |slices[i].targets| && TargetOwner(s, idx, slices[i].targets[j]) == Some(r)
  {
    if slices != [] {
      var init, last := slices[..|slices| - 1], slices[|slices| - 1];
      assert slices == init + [last];
      BackingMembers(s, idx, init, key, r);
      OwnersMembers(s, idx, last.targets, r);
      if r in Backing(s, idx, init, key) {
        var i, j :| 0 <= i < |init| && SliceOf(init[i], key)
              && 0 <= j < |init[i].targets| && TargetOwner(s, idx, init[i].targets[j]) == Some(r);
        assert slices[i] == init[i];
      } else if r in Backing(s, idx, slices, key) {
        assert slices[|slices| - 1] == last;
      }
    }
  }

  function Refs(m: map<ServiceKey, set<Ref>>, k: ServiceKey): (r: set<Ref>) { if k in m then m[k] else {} }

  method BuildBackers(s: Snapshot, idx: Index) returns (backers: map<ServiceKey, set<Ref>>)
    ensures forall k :: Refs(backers, k) == Backing(s, idx, s.slices, k)
  {
    var pods := BuildIndex(s.pods, PodKey());
    backers := map[];
    for i := 0 to |s.slices|
      invariant forall k :: Refs(backers, k) == Backing(s, idx, s.slices[..i], k)
    {
      assert s.slices[..i + 1][..i] == s.slices[..i];
      var es := s.slices[i];
      if es.service == "" { continue; }
      var key := ServiceKey(es.namespace, es.service);
      var owners := SliceOwners(s, idx, pods, es.targets);
      backers := backers[key := Refs(backers, key) + owners];
    }
    assert s.slices[..|s.slices|] == s.slices;
  }

  method SliceOwners(ghost s: Snapshot, idx: Index, pods: map<string, Pod>, targets: seq<Target>)
    returns (owners: set<Ref>)
    requires pods == IndexBy(s.pods, PodKey())
    ensures owners == Owners(s, idx, targets)
  {
    owners := {};
    for j := 0 to |targets|
      invariant owners == Owners(s, idx, targets[..j])
    {
      assert targets[..j + 1][..j] == targets[..j];
      var t := targets[j];
      if t.NoTarget? || t.kind != "Pod" { continue; }
      var k := t.namespace + "/" + t.name;
      if k !in pods { continue; }
      owners := owners + {RefOf(idx, pods[k])};
    }
    assert targets[..|targets|] == targets;
  }

  // ---------------------------------------------------------------- who declares a dependency

  function ServiceKeys(services: seq<Service>): (r: set<ServiceKey>) {
    set i | 0 <= i < |services| :: services[i].key
  }

  function NamedService(s: Snapshot, urlHost: UrlHost, namespace: string, value: string): (r: Option<ServiceKey>) {
    if value == "" then None else MatchServiceRef(value, namespace, ServiceKeys(s.services), urlHost)
  }

  function Containers(pod: Pod): (r: seq<Container>) { pod.spec.initContainers + pod.spec.containers }

  function NamedIn(s: Snapshot, urlHost: UrlHost, namespace: string, env: seq<string>): (r: set<ServiceKey>) {
    if env == [] then {}
    else
      var rest := NamedIn(s, urlHost, namespace, env[..|env| - 1]);
      match NamedService(s, urlHost, namespace, env[|env| - 1])
      case Some(k) => rest + {k}
      case None => rest
  }

  function NamedBy(s: Snapshot, urlHost: UrlHost, namespace: string, cs: seq<Container>): (r: set<ServiceKey>) {
    if cs == [] then {}
    else NamedBy(s, urlHost, namespace, cs[..|cs| - 1]) + NamedIn(s, urlHost, namespace, cs[|cs| - 1].env)
  }

  /** The Services some pod of `r` names. */
  function Declared(s: Snapshot, idx: Index, urlHost: UrlHost, pods: seq<Pod>, r: Ref): (out: set<ServiceKey>) {
    if pods == [] then {}
    else
      var p := pods[|pods| - 1];
      var rest := Declared(s, idx, urlHost, pods[..|pods| - 1], r);
      if RefOf(idx, p) == r then rest + NamedBy(s, urlHost, p.namespace, Containers(p)) else rest
  }

  ghost predicate PodNames(s: Snapshot, urlHost: UrlHost, p: Pod, k: ServiceKey) {
    exists c, v :: c in Containers(p) && v in c.env && NamedService(s, urlHost, p.namespace, v) == Some(k)
  }

  /** A literal value of some pod grouped under `r` names the Service. */
  ghost predicate Mentions(s: Snapshot, idx: Index, urlHost: UrlHost, pods: seq<Pod>, r: Ref, k: ServiceKey) {
    exists p :: p in pods && RefOf(idx, p) == r && PodNames(s, urlHost, p, k)
  }

  lemma {:induction false} NamedInMembers(s: Snapshot, urlHost: UrlHost, namespace: string, env: seq<string>,
                                          k: ServiceKey)
    ensures k in NamedIn(s, urlHost, namespace, env)
       <==> exists v :: v in env && NamedService(s, urlHost, namespace, v) == Some(k)
  {
    if env != [] {
      var init, last := env[..|env| - 1], env[|env| - 1];
      assert env == init + [last];
      NamedInMembers(s, urlHost, namespace, init, k);
    }
  }

  lemma {:induction false} NamedByMembers(s: Snapshot, urlHost: UrlHost, namespace: string, cs: seq<Container>,
                                          k: ServiceKey)
    ensures k in NamedBy(s, urlHost, namespace, cs)
       <==> exists c, v :: c in cs && v in c.env && NamedService(s, urlHost, namespace, v) == Some(k)
  {
    if cs != [] {
      var init, last := cs[..|cs| - 1], cs[|cs| - 1];
      assert cs == init + [last];
      NamedByMembers(s, urlHost, namespace, init, k);
      NamedInMembers(s, urlHost, namespace, last.env, k);
    }
  }

  lemma {:induction false} DeclaredMembers(s: Snapshot, idx: Index, urlHost: UrlHost, pods: seq<Pod>, r: Ref,
                                           k: ServiceKey)
    ensures k in Declared(s, idx, urlHost, pods, r) <==> Mentions(s, idx, urlHost, pods, r, k)
  {
    if pods != [] {
      var init, last := pods[..|pods| - 1], pods[|pods| - 1];
      assert pods == init + [last];
      DeclaredMembers(s, idx, urlHost, init, r, k);
      NamedByMembers(s, urlHost, last.namespace, Containers(last), k);
      assert PodNames(s, urlHost, last, k) <==> k in NamedBy(s, urlHost, last.namespace, Containers(last));
    }
  }

  // ---------------------------------------------------------------- edges

  function ServiceKeyOf(): (f: Service -> ServiceKey) { (svc: Service) => svc.key }

  /** The kind of edge, from the Service's own spec and who backs it. */
  function ClassifyEdge(svc: Service, backed: bool): (r: EdgeKind) {
    if svc.externalName then External
    else if backed then Resolved
    else if svc.selector == map[] then Unattributable
    else Unresolved
  }

  ghost predicate IsEdge(s: Snapshot, idx: Index, e: Edge) {
    var services := IndexBy(s.services, ServiceKeyOf());
    var truth := Backing(s, idx, s.slices, e.service);
    && e.service in services
    && e.kind == ClassifyEdge(services[e.service], truth != {})
    && Lists(e.backers, if e.kind == External then {} else truth)
    && SortedBy(e.backers, RefLe)
  }

  method MakeEdge(s: Snapshot, idx: Index, from: Ref, key: ServiceKey, services: map<ServiceKey, Service>,
                  truth: set<Ref>)
    returns (e: Edge)
    requires services == IndexBy(s.services, ServiceKeyOf()) && key in services
    requires truth == Backing(s, idx, s.slices, key)
    ensures e.from == from && e.service == key && IsEdge(s, idx, e)
  {
    RefOrder();
    var refs := SortedElements(truth, RefLe);
    if truth != {} { var r :| r in truth; assert r in refs; }
    if |refs| > 0 { assert refs[0] in refs; }
    var kind := ClassifyEdge(services[key], |refs| > 0);
    if kind == External { refs := []; }
    e := Edge(from, key, refs, kind);
  }

  /** Backers are recorded exactly on resolved edges. */
  lemma BackersIffResolved(s: Snapshot, idx: Index, e: Edge)
    requires IsEdge(s, idx, e)
    ensures e.backers != [] <==> e.kind == Resolved
  {
    if e.backers != [] { assert e.backers[0] in e.backers; }
  }

  function FromIs(r: Ref): (f: Edge -> bool) { (e: Edge) => e.from == r }

  function Out(byFrom: map<Ref, seq<Edge>>, r: Ref): (out: seq<Edge>) { if r in byFrom then byFrom[r] else [] }

  /** What the collecting loops carry: the edges, their index, and the pairs already met. */
  datatype Acc = Acc(edges: seq<Edge>, byFrom: map<Ref, seq<Edge>>, met: set<(Ref, ServiceKey)>)

  /** One edge for each met pair, and no other. */
  ghost predicate EdgeList(s: Snapshot, idx: Index, edges: seq<Edge>, met: set<(Ref, ServiceKey)>) {
    && (forall e :: e in edges ==> IsEdge(s, idx, e) && (e.from, e.service) in met)
    && (forall r, k :: (r, k) in met ==> exists e :: e in edges && e.from == r && e.service == k)
    && Once(edges)
  }

  ghost predicate Once(edges: seq<Edge>) {
    forall i, j :: 0 <= i < j < |edges| ==> edges[i].from != edges[j].from || edges[i].service != edges[j].service
  }

  ghost predicate Indexed(edges: seq<Edge>, byFrom: map<Ref, seq<Edge>>) {
    && (forall r :: Out(byFrom, r) == Filter(edges, FromIs(r)))
    && (forall r :: r in byFrom ==> byFrom[r] != [])
  }

  ghost predicate Ok(s: Snapshot, idx: Index, acc: Acc) {
    EdgeList(s, idx, acc.edges, acc.met) && Indexed(acc.edges, acc.byFrom)
  }

  function AddTo(acc: Acc, e: Edge): (r: Acc) {
    Acc(acc.edges + [e], acc.byFrom[e.from := Out(acc.byFrom, e.from) + [e]], acc.met + {(e.from, e.service)})
  }

  lemma AddListed(s: Snapshot, idx: Index, edges: seq<Edge>, met: set<(Ref, ServiceKey)>, e: Edge)
    requires EdgeList(s, idx, edges, met) && IsEdge(s, idx, e) && (e.from, e.service) !in met
    ensures EdgeList(s, idx, edges + [e], met + {(e.from, e.service)})
  {
    var longer := edges + [e];
    forall r, k | (r, k) in met + {(e.from, e.service)}
      ensures exists x :: x in longer && x.from == r && x.service == k
    {
      if (r, k) in met {
        var x :| x in edges && x.from == r && x.service == k;
        assert x in longer;
      } else {
        assert e in longer;
      }
    }
    forall i, j | 0 <= i < j < |longer|
      ensures longer[i].from != longer[j].from || longer[i].service != longer[j].service
    {
      assert longer[i] in edges;
    }
  }

  lemma AddIndexed(edges: seq<Edge>, byFrom: map<Ref, seq<Edge>>, e: Edge)
    requires Indexed(edges, byFrom)
    ensures Indexed(edges + [e], byFrom[e.from := Out(byFrom, e.from) + [e]])
  {
    var longer := edges + [e];
    assert longer[..|longer| - 1] == edges;
  }

  /** One step of the collecting loops: a value that names a Service not met before from
      this workload adds one edge. */
  method Visit(s: Snapshot, idx: Index, backers: map<ServiceKey, set<Ref>>, services: map<ServiceKey, Service>,
               ref: Ref, named: Option<ServiceKey>, acc0: Acc) returns (acc: Acc)
    requires services == IndexBy(s.services, ServiceKeyOf())
    requires named.Some? ==>
      named.value in services && Refs(backers, named.value) == Backing(s, idx, s.slices, named.value)
    requires Ok(s, idx, acc0)
    ensures Ok(s, idx, acc)
    ensures acc.met == if named.Some? then acc0.met + {(ref, named.value)} else acc0.met
  {
    if named.None? { return acc0; }
    var key := named.value;
    if (ref, key) in acc0.met {
      assert acc0.met + {(ref, key)} == acc0.met;
      return acc0;
    }
    var e := MakeEdge(s, idx, ref, key, services, Refs(backers, key));
    AddListed(s, idx, acc0.edges, acc0.met, e);
    AddIndexed(acc0.edges, acc0.byFrom, e);
    return AddTo(acc0, e);
  }

  /** `met` grew by exactly the given Services of `ref`. */
  ghost predicate Grew(met0: set<(Ref, ServiceKey)>, met: set<(Ref, ServiceKey)>, ref: Ref, keys: set<ServiceKey>) {
    forall r, k :: (r, k) in met <==> (r, k) in met0 || (r == ref && k in keys)
  }

  lemma GrewStep(a: set<(Ref, ServiceKey)>, b: set<(Ref, ServiceKey)>, c: set<(Ref, ServiceKey)>, ref: Ref,
                 first: set<ServiceKey>, more: set<ServiceKey>)
    requires Grew(a, b, ref, first) && Grew(b, c, ref, more)
    ensures Grew(a, c, ref, first + more)
  {}

  lemma NamedByStep(s: Snapshot, urlHost: UrlHost, namespace: string, cs: seq<Container>, i: nat)
    requires i < |cs|
    ensures NamedBy(s, urlHost, namespace, cs[..i + 1])
         == NamedBy(s, urlHost, namespace, cs[..i]) + NamedIn(s, urlHost, namespace, cs[i].env)
  {
    assert cs[..i + 1][..i] == cs[..i];
  }

  method CollectEnv(s: Snapshot, idx: Index, urlHost: UrlHost, backers: map<ServiceKey, set<Ref>>,
                    services: map<ServiceKey, Service>, namespace: string, ref: Ref, env: seq<string>, acc0: Acc)
    returns (acc: Acc)
    requires services == IndexBy(s.services, ServiceKeyOf())
    requires forall k :: Refs(backers, k) == Backing(s, idx, s.slices, k)
    requires Ok(s, idx, acc0)
    ensures Ok(s, idx, acc)
    ensures Grew(acc0.met, acc.met, ref, NamedIn(s, urlHost, namespace, env))
  {
    acc := acc0;
    for i := 0 to |env|
      invariant Ok(s, idx, acc)
      invariant Grew(acc0.met, acc.met, ref, NamedIn(s, urlHost, namespace, env[..i]))
    {
      assert env[..i + 1][..i] == env[..i];
      var named := NamedService(s, urlHost, namespace, env[i]);
      NamedExists(s, urlHost, namespace, env[i]);
      acc := Visit(s, idx, backers, services, ref, named, acc);
    }
    assert env[..|env|] == env;
  }

  method CollectPod(s: Snapshot, idx: Index, urlHost: UrlHost, backers: map<ServiceKey, set<Ref>>,
                    services: map<ServiceKey, Service>, pod: Pod, acc0: Acc) returns (acc: Acc)
    requires services == IndexBy(s.services, ServiceKeyOf())
    requires forall k :: Refs(backers, k) == Backing(s, idx, s.slices, k)
    requires Ok(s, idx, acc0)
    ensures Ok(s, idx, acc)
    ensures Grew(acc0.met, acc.met, RefOf(idx, pod), NamedBy(s, urlHost, pod.namespace, Containers(pod)))
  {
    acc := acc0;
    var ref := RefOf(idx, pod);
    var cs := Containers(pod);
    for i := 0 to |cs|
      invariant Ok(s, idx, acc)
      invariant Grew(acc0.met, acc.met, ref, NamedBy(s, urlHost, pod.namespace, cs[..i]))
    {
      ghost var before := acc.met;
      acc := CollectEnv(s, idx, urlHost, backers, services, pod.namespace, ref, cs[i].env, acc);
      NamedByStep(s, urlHost, pod.namespace, cs, i);
      GrewStep(acc0.met, before, acc.met, ref, NamedBy(s, urlHost, pod.namespace, cs[..i]),
               NamedIn(s, urlHost, pod.namespace, cs[i].env));
    }
    assert cs[..|cs|] == cs;
  }

  ghost predicate Met(s: Snapshot, idx: Index, urlHost: UrlHost, pods: seq<Pod>, met: set<(Ref, ServiceKey)>) {
    forall r, k :: (r, k) in met <==> k in Declared(s, idx, urlHost, pods, r)
  }

  method Collect(s: Snapshot, idx: Index, urlHost: UrlHost, backers: map<ServiceKey, set<Ref>>) returns (acc: Acc)
    requires forall k :: Refs(backers, k) == Backing(s, idx, s.slices, k)
    ensures Ok(s, idx, acc)
    ensures Met(s, idx, urlHost, s.pods, acc.met)
  {
    var services := BuildIndex(s.services, ServiceKeyOf());
    acc := Acc([], map[], {});
    for i := 0 to |s.pods|
      invariant Ok(s, idx, acc)
      invariant Met(s, idx, urlHost, s.pods[..i], acc.met)
    {
      assert s.pods[..i + 1][..i] == s.pods[..i];
      acc := CollectPod(s, idx, urlHost, backers, services, s.pods[i], acc);
    }
    assert s.pods[..|s.pods|] == s.pods;
  }

  lemma NamedExists(s: Snapshot, urlHost: UrlHost, namespace: string, value: string)
    ensures var named := NamedService(s, urlHost, namespace, value);
      named.Some? ==> named.value in IndexBy(s.services, ServiceKeyOf())
  {
    MatchExists(value, namespace, ServiceKeys(s.services), urlHost);
  }

  // ---------------------------------------------------------------- sorting both copies

  predicate EdgeLe(a: Edge, b: Edge) {
    if a.from.Key() != b.from.Key() then StrLe(a.from.Key(), b.from.Key())
    else StrLe(a.service.Key(), b.service.Key())
  }

  predicate ServiceLe(a: Edge, b: Edge) { StrLe(a.service.Key(), b.service.Key()) }

  lemma EdgeOrder()
    ensures TotalPreorder(EdgeLe) && TotalPreorder(ServiceLe)
  {
    forall a: Edge, b: Edge ensures EdgeLe(a, b) || EdgeLe(b, a) ensures ServiceLe(a, b) || ServiceLe(b, a) {
      StrLeTotal(a.from.Key(), b.from.Key());
      StrLeTotal(a.service.Key(), b.service.Key());
    }
    forall a: Edge, b: Edge, c: Edge | EdgeLe(a, b) && EdgeLe(b, c) ensures EdgeLe(a, c) {
      EdgeLeTransitive(a, b, c);
    }
    forall a: Edge, b: Edge, c: Edge | ServiceLe(a, b) && ServiceLe(b, c) ensures ServiceLe(a, c) {
      StrLeTransitive(a.service.Key(), b.service.Key(), c.service.Key());
    }
  }

  lemma EdgeLeTransitive(a: Edge, b: Edge, c: Edge)
    requires EdgeLe(a, b) && EdgeLe(b, c)
    ensures EdgeLe(a, c)
  {
    var x, y, z := a.from.Key(), b.from.Key(), c.from.Key();
    if x == y == z {
      StrLeTransitive(a.service.Key(), b.service.Key(), c.service.Key());
    } else if x != y && y != z {
      StrLeTransitive(x, y, z);
      if x == z { StrLeAntisymmetric(x, y); }
    }
  }

  lemma {:induction false} FilterCount<T>(xs: seq<T>, f: T -> bool, x: T)
    ensures multiset(Filter(xs, f))[x] == if f(x) then multiset(xs)[x] else 0
  {
    if xs != [] {
      var init, last := xs[..|xs| - 1], xs[|xs| - 1];
      assert xs == init + [last];
      FilterCount(init, f, x);
    }
  }

  lemma FilterPermuted(xs: seq<Edge>, ys: seq<Edge>, f: Edge -> bool)
    requires multiset(xs) == multiset(ys)
    ensures multiset(Filter(xs, f)) == multiset(Filter(ys, f))
  {
    forall x ensures multiset(Filter(xs, f))[x] == multiset(Filter(ys, f))[x] {
      FilterCount(xs, f, x);
      FilterCount(ys, f, x);
    }
  }

  lemma {:induction false} FilterSorted(xs: seq<Edge>, r: Ref)
    requires SortedBy(xs, EdgeLe)
    ensures SortedBy(Filter(xs, FromIs(r)), ServiceLe)
  {
    if xs != [] {
      var init, last := xs[..|xs| - 1], xs[|xs| - 1];
      FilterSorted(init, r);
      FilterMembers(init, FromIs(r));
      var kept := Filter(init, FromIs(r));
      forall i | 0 <= i < |kept| && last.from == r ensures ServiceLe(kept[i], last) {
        assert kept[i] in kept;
        var j :| 0 <= j < |init| && init[j] == kept[i];
        assert EdgeLe(xs[j], xs[|xs| - 1]);
      }
    }
  }

  /** The Service name decides the edge. */
  ghost predicate KeyDecides(xs: seq<Edge>) {
    forall a, b :: a in xs && b in xs && a.service.Key() == b.service.Key() ==> a == b
  }

  lemma TailKeeps(xs: seq<Edge>)
    requires xs != [] && SortedBy(xs, ServiceLe)
    ensures SortedBy(xs[1..], ServiceLe)
    ensures multiset(xs[1..]) == multiset(xs) - multiset{xs[0]}
    ensures KeyDecides(xs) ==> KeyDecides(xs[1..])
  {
    assert xs == [xs[0]] + xs[1..];
  }

  lemma SameElements(xs: seq<Edge>, ys: seq<Edge>)
    requires multiset(xs) == multiset(ys)
    ensures forall e :: e in xs <==> e in ys
    ensures |xs| == |ys|
  {
    assert |xs| == |multiset(xs)| && |ys| == |multiset(ys)|;
    assert forall e :: e in xs <==> e in multiset(xs);
    assert forall e :: e in ys <==> e in multiset(ys);
  }

  lemma SameHead(xs: seq<Edge>, ys: seq<Edge>)
    requires xs != [] && ys != [] && forall e :: e in xs <==> e in ys
    requires SortedBy(xs, ServiceLe) && SortedBy(ys, ServiceLe) && KeyDecides(xs)
    ensures xs[0] == ys[0]
  {
    var x, y := xs[0], ys[0];
    assert x in xs && y in ys;
    StrLeTotal(x.service.Key(), x.service.Key());
    StrLeTotal(y.service.Key(), y.service.Key());
    var i :| 0 <= i < |ys| && ys[i] == x;
    var j :| 0 <= j < |xs| && xs[j] == y;
    assert ServiceLe(x, y) && ServiceLe(y, x);
    StrLeAntisymmetric(x.service.Key(), y.service.Key());
  }

  /** Sorted, with no two equal keys, a list is determined by its elements. */
  lemma {:induction false} SortedUnique(xs: seq<Edge>, ys: seq<Edge>)
    requires multiset(xs) == multiset(ys)
    requires SortedBy(xs, ServiceLe) && SortedBy(ys, ServiceLe) && KeyDecides(xs)
    ensures xs == ys
  {
    SameElements(xs, ys);
    if xs != [] {
      SameHead(xs, ys);
      TailKeeps(xs);
      TailKeeps(ys);
      SortedUnique(xs[1..], ys[1..]);
      assert xs == [xs[0]] + xs[1..] && ys == [ys[0]] + ys[1..];
    }
  }

  ghost predicate NoSlash(services: seq<Service>) {
    forall i :: 0 <= i < |services| ==> '/' !in services[i].key.namespace
  }

  lemma ServiceDecides(s: Snapshot, idx: Index, edges: seq<Edge>, met: set<(Ref, ServiceKey)>, r: Ref)
    requires EdgeList(s, idx, edges, met) && NoSlash(s.services)
    ensures KeyDecides(Filter(edges, FromIs(r)))
  {
    FilterMembers(edges, FromIs(r));
    var mine := Filter(edges, FromIs(r));
    forall a, b | a in mine && b in mine && a.service.Key() == b.service.Key() ensures a == b {
      assert IsEdge(s, idx, a) && IsEdge(s, idx, b);
      SlashSplits(a.service.namespace, a.service.name, b.service.namespace, b.service.name);
      var i :| 0 <= i < |edges| && edges[i] == a;
      var j :| 0 <= j < |edges| && edges[j] == b;
    }
  }

  method SortIndex(byFrom: map<Ref, seq<Edge>>) returns (sorted: map<Ref, seq<Edge>>)
    ensures sorted.Keys == byFrom.Keys
    ensures forall r :: r in byFrom ==> multiset(sorted[r]) == multiset(byFrom[r]) && SortedBy(sorted[r], ServiceLe)
  {
    EdgeOrder();
    sorted := byFrom;
    var rest := byFrom.Keys;
    while rest != {}
      invariant rest <= byFrom.Keys && sorted.Keys == byFrom.Keys
      invariant forall r :: r in byFrom ==> multiset(sorted[r]) == multiset(byFrom[r])
      invariant forall r :: r in byFrom && r !in rest ==> SortedBy(sorted[r], ServiceLe)
      decreases rest
    {
      var r :| r in rest;
      var es := SortSlice(sorted[r], ServiceLe);
      sorted := sorted[r := es];
      rest := rest - {r};
    }
  }

  /** What Build promises: exactly the declared dependencies, each once, backed by
      EndpointSlice truth; and an index whose entries are the sorted list's own sublists. */
  ghost predicate IsGraph(s: Snapshot, idx: Index, urlHost: UrlHost, g: Graph) {
    && (forall e :: e in g.edges ==> IsEdge(s, idx, e))
    && (forall r, k :: Mentions(s, idx, urlHost, s.pods, r, k) <==>
          exists e :: e in g.edges && e.from == r && e.service == k)
    && Once(g.edges)
    && SortedBy(g.edges, EdgeLe)
    && (forall r :: r in g.byFrom ==> g.byFrom[r] != [] && SortedBy(g.byFrom[r], ServiceLe))
    && (forall r :: multiset(Out(g.byFrom, r)) == multiset(Filter(g.edges, FromIs(r))))
    && (NoSlash(s.services) ==> forall r :: Out(g.byFrom, r) == Filter(g.edges, FromIs(r)))
  }

  method Build(s: Snapshot, idx: Index, urlHost: UrlHost) returns (g: Graph)
    ensures IsGraph(s, idx, urlHost, g)
  {
    var backers := BuildBackers(s, idx);
    var acc := Collect(s, idx, urlHost, backers);
    EdgeOrder();
    var edges := SortSlice(acc.edges, EdgeLe);
    var sorted := SortIndex(acc.byFrom);
    g := Graph(edges, sorted);
    Resort(s, idx, acc.edges, edges, acc.met);
    forall r, k ensures Mentions(s, idx, urlHost, s.pods, r, k) <==>
        exists e :: e in edges && e.from == r && e.service == k
    {
      DeclaredMembers(s, idx, urlHost, s.pods, r, k);
      EdgeOfPair(s, idx, edges, acc.met, r, k);
    }
    forall r ensures multiset(Out(sorted, r)) == multiset(Filter(edges, FromIs(r)))
      ensures NoSlash(s.services) ==> Out(sorted, r) == Filter(edges, FromIs(r))
      ensures r in sorted ==> sorted[r] != []
    {
      IndexSorted(s, idx, acc, edges, sorted, r);
    }
  }

  lemma IndexSorted(s: Snapshot, idx: Index, acc: Acc, edges: seq<Edge>, sorted: map<Ref, seq<Edge>>, r: Ref)
    requires Ok(s, idx, acc) && EdgeList(s, idx, edges, acc.met)
    requires multiset(edges) == multiset(acc.edges) && SortedBy(edges, EdgeLe)
    requires sorted.Keys == acc.byFrom.Keys
    requires r in sorted ==> multiset(sorted[r]) == multiset(acc.byFrom[r]) && SortedBy(sorted[r], ServiceLe)
    ensures multiset(Out(sorted, r)) == multiset(Filter(edges, FromIs(r)))
    ensures NoSlash(s.services) ==> Out(sorted, r) == Filter(edges, FromIs(r))
    ensures r in sorted ==> sorted[r] != []
  {
    assert Out(acc.byFrom, r) == Filter(acc.edges, FromIs(r));
    FilterPermuted(acc.edges, edges, FromIs(r));
    if r in sorted { SameElements(sorted[r], acc.byFrom[r]); }
    if NoSlash(s.services) {
      FilterSorted(edges, r);
      ServiceDecides(s, idx, edges, acc.met, r);
      SortedUnique(Filter(edges, FromIs(r)), Out(sorted, r));
    }
  }

  lemma EdgeOfPair(s: Snapshot, idx: Index, edges: seq<Edge>, met: set<(Ref, ServiceKey)>, r: Ref, k: ServiceKey)
    requires EdgeList(s, idx, edges, met)
    ensures (r, k) in met <==> exists e :: e in edges && e.from == r && e.service == k
  {}

  /** Rearranging the list keeps what it lists. */
  lemma Resort(s: Snapshot, idx: Index, list: seq<Edge>, edges: seq<Edge>, met: set<(Ref, ServiceKey)>)
    requires EdgeList(s, idx, list, met) && multiset(edges) == multiset(list)
    ensures EdgeList(s, idx, edges, met)
  {
    SameElements(list, edges);
    forall i, j | 0 <= i < j < |edges|
      ensures edges[i].from != edges[j].from || edges[i].service != edges[j].service
    {
      assert edges[i] in list && edges[j] in list;
      var a :| 0 <= a < |list| && list[a] == edges[i];
      var b :| 0 <= b < |list| && list[b] == edges[j];
      if edges[i] == edges[j] { RepeatedElement(list, edges, i, j); }
    }
    forall r, k | (r, k) in met ensures exists e :: e in edges && e.from == r && e.service == k {
      var e :| e in list && e.from == r && e.service == k;
      assert e in edges;
    }
  }

  lemma RepeatedElement(list: seq<Edge>, edges: seq<Edge>, i: nat, j: nat)
    requires multiset(edges) == multiset(list) && i < j < |edges| && edges[i] == edges[j]
    ensures exists a, b :: 0 <= a < b < |list| && list[a] == list[b]
  {
    var e := edges[i];
    assert edges == edges[..i] + [e] + edges[i + 1..j] + [e] + edges[j + 1..];
    TwiceRepeats(list, e);
  }

  lemma {:induction false} TwiceRepeats(list: seq<Edge>, e: Edge)
    requires multiset(list)[e] >= 2
    ensures exists a, b :: 0 <= a < b < |list| && list[a] == list[b]
  {
    var init, last := list[..|list| - 1], list[|list| - 1];
    assert list == init + [last];
    if last == e {
      assert e in multiset(init);
      var a :| 0 <= a < |init| && init[a] == e;
      assert list[a] == list[|init|];
    } else {
      TwiceRepeats(init, e);
      var a, b :| 0 <= a < b < |init| && init[a] == init[b];
      assert list[a] == list[b];
    }
  }
}
