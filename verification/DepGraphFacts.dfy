/** What the dependency graph is made of, read off the cluster's objects. */
module DepGraphFacts {
  import opened Basics
  import opened Cluster
  import opened Workload
  import opened DepGraph
  import SurviveFacts
  import Match

  // ---------------------------------------------------------------- who serves

  /** One pod of a name in a namespace, one Service of a name, and no slash in a namespace. */
  ghost predicate Tidy(s: Snapshot) {
    && (forall i, j :: 0 <= i < j < |s.pods| ==>
          s.pods[i].namespace != s.pods[j].namespace || s.pods[i].name != s.pods[j].name)
    && (forall i, j :: 0 <= i < j < |s.services| ==> s.services[i].key != s.services[j].key)
    && (forall p :: p in s.pods ==> '/' !in p.namespace)
    && forall es, t :: es in s.slices && t in es.targets && t.Target? ==> '/' !in t.namespace
  }

  /** The endpoint is that pod. */
  ghost predicate Aims(t: Target, p: Pod) {
    t.Target? && t.kind == "Pod" && t.namespace == p.namespace && t.name == p.name
  }

  lemma PodFound(s: Snapshot, namespace: string, name: string, p: Pod)
    requires Tidy(s) && '/' !in namespace
    ensures var pods := IndexBy(s.pods, PodKey());
      namespace + "/" + name in pods && pods[namespace + "/" + name] == p <==>
      p in s.pods && p.namespace == namespace && p.name == name
  {
    forall i, j | 0 <= i < j < |s.pods| ensures PodKey()(s.pods[i]) != PodKey()(s.pods[j]) {
      if s.pods[i].Key() == s.pods[j].Key() {
        SlashSplits(s.pods[i].namespace, s.pods[i].name, s.pods[j].namespace, s.pods[j].name);
      }
    }
    EachFound(s.pods, PodKey());
    var pods, k := IndexBy(s.pods, PodKey()), namespace + "/" + name;
    if k in pods && pods[k] == p { SlashSplits(p.namespace, p.name, namespace, name); }
  }

  lemma TargetMeans(s: Snapshot, idx: Index, t: Target, r: Ref)
    requires Tidy(s) && (t.Target? ==> '/' !in t.namespace)
    ensures TargetOwner(s, idx, t) == Some(r) <==> exists p :: p in s.pods && Aims(t, p) && RefOf(idx, p) == r
  {
    if t.Target? {
      forall p { PodFound(s, t.namespace, t.name, p); }
      var pods, k := IndexBy(s.pods, PodKey()), t.namespace + "/" + t.name;
      if k in pods { PodFound(s, t.namespace, t.name, pods[k]); }
    }
  }

  /** The workload serves behind the Service: an endpoint of one of its slices is one of its pods. */
  ghost predicate Backs(s: Snapshot, k: ServiceKey, r: Ref) {
    exists es, t, p ::
      && es in s.slices && es.namespace == k.namespace && es.service == k.name != ""
      && t in es.targets && p in s.pods && Aims(t, p) && RefOf(IndexOf(s), p) == r
  }

  lemma BackingMeans(s: Snapshot, k: ServiceKey, r: Ref)
    requires Tidy(s)
    ensures r in Backing(s, IndexOf(s), s.slices, k) <==> Backs(s, k, r)
  {
    var idx := IndexOf(s);
    BackingMembers(s, idx, s.slices, k, r);
    if r in Backing(s, idx, s.slices, k) {
      var i, j :| 0 <= i < |s.slices| && SliceOf(s.slices[i], k)
            && 0 <= j < |s.slices[i].targets| && TargetOwner(s, idx, s.slices[i].targets[j]) == Some(r);
      assert s.slices[i] in s.slices && s.slices[i].targets[j] in s.slices[i].targets;
      TargetMeans(s, idx, s.slices[i].targets[j], r);
    }
    if Backs(s, k, r) {
      var es, t, p :|
        && es in s.slices && es.namespace == k.namespace && es.service == k.name != ""
        && t in es.targets && p in s.pods && Aims(t, p) && RefOf(idx, p) == r;
      TargetMeans(s, idx, t, r);
      var i :| 0 <= i < |s.slices| && s.slices[i] == es;
      var j :| 0 <= j < |es.targets| && es.targets[j] == t;
      assert SliceOf(s.slices[i], k) && TargetOwner(s, idx, s.slices[i].targets[j]) == Some(r);
    }
  }

  // ---------------------------------------------------------------- what kind of edge

  /** The kinds: an ExternalName Service is external; any other is resolved when a workload backs it;
      unbacked, it is unresolved if it has a selector, and unattributable if it has none. */
  lemma KindMeans(s: Snapshot, svc: Service, kind: EdgeKind)
    requires Tidy(s) && svc in s.services
    ensures SurviveFacts.KindIs(s, IndexOf(s), svc.key, kind) <==>
      match kind
      case External => svc.externalName
      case Resolved => !svc.externalName && exists r :: Backs(s, svc.key, r)
      case Unresolved => !svc.externalName && svc.selector != map[] && forall r :: !Backs(s, svc.key, r)
      case Unattributable => !svc.externalName && svc.selector == map[] && forall r :: !Backs(s, svc.key, r)
  {
    EachFound(s.services, ServiceKeyOf());
    forall r ensures r in Backing(s, IndexOf(s), s.slices, svc.key) <==> Backs(s, svc.key, r) {
      BackingMeans(s, svc.key, r);
    }
  }

  // ---------------------------------------------------------------- who depends

  /** A container's literal value names the Service to a pod of that namespace. */
  ghost predicate Writes(s: Snapshot, urlHost: UrlHost, p: Pod, c: Container, k: ServiceKey) {
    exists v :: v in c.env && v != ""
      && Match.MatchServiceRef(v, p.namespace, set svc | svc in s.services :: svc.key, urlHost) == Some(k)
  }

  /** A pod names a Service in any of its containers, initial ones included. */
  lemma NamesMeans(s: Snapshot, urlHost: UrlHost, p: Pod, k: ServiceKey)
    ensures PodNames(s, urlHost, p, k) <==>
      exists c :: (c in p.spec.initContainers || c in p.spec.containers) && Writes(s, urlHost, p, c, k)
  {
    assert (set svc | svc in s.services :: svc.key) == ServiceKeys(s.services);
    if PodNames(s, urlHost, p, k) {
      var c, v :| c in Containers(p) && v in c.env && NamedService(s, urlHost, p.namespace, v) == Some(k);
      assert Writes(s, urlHost, p, c, k);
    }
    if c :| (c in p.spec.initContainers || c in p.spec.containers) && Writes(s, urlHost, p, c, k) {
      var v :| v in c.env && v != ""
        && Match.MatchServiceRef(v, p.namespace, set svc | svc in s.services :: svc.key, urlHost) == Some(k);
      assert c in Containers(p) && NamedService(s, urlHost, p.namespace, v) == Some(k);
    }
  }
}
