/** Whose pod it is and how many there should be, read off the cluster's objects. */
module WorkloadFacts {
  import opened Basics
  import opened Cluster
  import opened Workload
  import Survive

  // ---------------------------------------------------------------- the controller of an object

  /** The first reference marked as the controller. */
  ghost predicate Controls(owners: seq<OwnerRef>, o: OwnerRef) {
    exists i :: IsFirstController(owners, i) && owners[i] == o
  }

  lemma ControlsIff(owners: seq<OwnerRef>, o: OwnerRef)
    ensures ControllerOf(owners) == Some(o) <==> Controls(owners, o)
  {
    ControllerFirst(owners);
  }

  lemma Uncontrolled(owners: seq<OwnerRef>)
    ensures ControllerOf(owners).None? <==> forall o :: !Controls(owners, o)
  {
    ControllerFirst(owners);
    if ControllerOf(owners).Some? { ControlsIff(owners, ControllerOf(owners).value); }
  }

  // ---------------------------------------------------------------- whose pod it is

  ghost predicate DistinctSets(s: Snapshot) {
    forall i, j :: 0 <= i < j < |s.replicaSets| ==> s.replicaSets[i].uid != s.replicaSets[j].uid
  }

  /** The ReplicaSet a reference leads to, by UID. */
  ghost predicate LeadsTo(s: Snapshot, o: OwnerRef, rs: ReplicaSet) {
    o.kind == "ReplicaSet" && rs in s.replicaSets && rs.uid == o.uid
  }

  ghost predicate LeadsNowhere(s: Snapshot, o: OwnerRef) {
    o.kind == "ReplicaSet" && forall rs :: rs in s.replicaSets ==> rs.uid != o.uid
  }

  lemma SetFound(s: Snapshot, uid: string, rs: ReplicaSet)
    requires DistinctSets(s)
    ensures var sets := IndexOf(s).replicaSets;
      uid in sets && sets[uid] == rs <==> rs in s.replicaSets && rs.uid == uid
  {
    EachFound(s.replicaSets, ReplicaSetUid());
  }

  lemma SetMissing(s: Snapshot, o: OwnerRef)
    requires DistinctSets(s) && o.kind == "ReplicaSet"
    ensures o.uid !in IndexOf(s).replicaSets <==> LeadsNowhere(s, o)
  {
    if o.uid in IndexOf(s).replicaSets { SetFound(s, o.uid, IndexOf(s).replicaSets[o.uid]); }
    if rs :| rs in s.replicaSets && rs.uid == o.uid { SetFound(s, o.uid, rs); }
  }

  ghost predicate UnderDeployment(rs: ReplicaSet, name: string) {
    exists up :: Controls(rs.owners, up) && up.kind == "Deployment" && up.name == name
  }

  /** A pod of a rollout: controlled by a ReplicaSet of that namespace which a Deployment of that
      name controls. */
  ghost predicate RolledOut(s: Snapshot, p: Pod, namespace: string, name: string) {
    exists o, rs :: Controls(p.owners, o) && LeadsTo(s, o, rs) && rs.namespace == namespace && UnderDeployment(rs, name)
  }

  /** A pod controlled by an object of that kind and name in its own namespace. */
  ghost predicate Directly(p: Pod, kind: string, namespace: string, name: string) {
    p.namespace == namespace && exists o :: Controls(p.owners, o) && o.kind == kind && o.name == name
  }

  /** A pod of a ReplicaSet that no Deployment controls, or that is not in the cluster any more. */
  ghost predicate Standalone(s: Snapshot, p: Pod, namespace: string, name: string) {
    exists o :: Controls(p.owners, o)
      && ((exists rs :: LeadsTo(s, o, rs) && rs.namespace == namespace && rs.name == name
             && forall n :: !UnderDeployment(rs, n))
          || (LeadsNowhere(s, o) && p.namespace == namespace && o.name == name))
  }

  /** Whose pod it is, kind by kind. */
  ghost predicate IsOf(s: Snapshot, p: Pod, r: Ref) {
    if r.kind == "Deployment" then RolledOut(s, p, r.namespace, r.name) || Directly(p, r.kind, r.namespace, r.name)
    else if r.kind == "ReplicaSet" then Standalone(s, p, r.namespace, r.name)
    else
      || Directly(p, r.kind, r.namespace, r.name)
      || (r.kind == "Pod" && p.namespace == r.namespace && p.name == r.name && forall o :: !Controls(p.owners, o))
  }

  lemma OneController(owners: seq<OwnerRef>, a: OwnerRef, b: OwnerRef)
    requires Controls(owners, a) && Controls(owners, b)
    ensures a == b
  {
    ControlsIff(owners, a);
    ControlsIff(owners, b);
  }

  lemma UnderIff(rs: ReplicaSet, name: string)
    ensures UnderDeployment(rs, name) <==>
      ControllerOf(rs.owners).Some? && ControllerOf(rs.owners).value.kind == "Deployment"
      && ControllerOf(rs.owners).value.name == name
  {
    if up :| Controls(rs.owners, up) && up.kind == "Deployment" && up.name == name { ControlsIff(rs.owners, up); }
    if ControllerOf(rs.owners).Some? { ControlsIff(rs.owners, ControllerOf(rs.owners).value); }
  }

  lemma DirectlyIff(p: Pod, o: OwnerRef, kind: string, namespace: string, name: string)
    requires Controls(p.owners, o)
    ensures Directly(p, kind, namespace, name) <==> p.namespace == namespace && o.kind == kind && o.name == name
  {
    forall q | Controls(p.owners, q) ensures q == o { OneController(p.owners, o, q); }
  }

  lemma RolledOutIff(s: Snapshot, p: Pod, o: OwnerRef, rs: ReplicaSet, namespace: string, name: string)
    requires DistinctSets(s) && Controls(p.owners, o) && LeadsTo(s, o, rs)
    ensures RolledOut(s, p, namespace, name) <==> rs.namespace == namespace && UnderDeployment(rs, name)
  {
    forall q | Controls(p.owners, q) ensures q == o { OneController(p.owners, o, q); }
    SetFound(s, o.uid, rs);
    forall t | LeadsTo(s, o, t) ensures t == rs { SetFound(s, o.uid, t); }
  }

  lemma StandaloneIff(s: Snapshot, p: Pod, o: OwnerRef, rs: ReplicaSet, namespace: string, name: string)
    requires DistinctSets(s) && Controls(p.owners, o) && LeadsTo(s, o, rs)
    ensures Standalone(s, p, namespace, name) <==>
      rs.namespace == namespace && rs.name == name && forall n :: !UnderDeployment(rs, n)
  {
    forall q | Controls(p.owners, q) ensures q == o { OneController(p.owners, o, q); }
    SetFound(s, o.uid, rs);
    forall t | LeadsTo(s, o, t) ensures t == rs { SetFound(s, o.uid, t); }
  }

  lemma LedTo(s: Snapshot, p: Pod, o: OwnerRef, rs: ReplicaSet, r: Ref)
    requires DistinctSets(s) && Controls(p.owners, o) && LeadsTo(s, o, rs)
    ensures RefOf(IndexOf(s), p) == r <==> IsOf(s, p, r)
  {
    ControlsIff(p.owners, o);
    SetFound(s, o.uid, rs);
    DirectlyIff(p, o, r.kind, r.namespace, r.name);
    RolledOutIff(s, p, o, rs, r.namespace, r.name);
    StandaloneIff(s, p, o, rs, r.namespace, r.name);
    UnderIff(rs, r.name);
    NeverUnder(rs);
  }

  lemma NeverUnder(rs: ReplicaSet)
    ensures (forall n :: !UnderDeployment(rs, n)) <==>
      ControllerOf(rs.owners).None? || ControllerOf(rs.owners).value.kind != "Deployment"
  {
    forall n ensures UnderDeployment(rs, n) ==>
      ControllerOf(rs.owners).Some? && ControllerOf(rs.owners).value.kind == "Deployment"
    {
      UnderIff(rs, n);
    }
    if ControllerOf(rs.owners).Some? { UnderIff(rs, ControllerOf(rs.owners).value.name); }
  }

  lemma LedNowhere(s: Snapshot, p: Pod, o: OwnerRef, r: Ref)
    requires DistinctSets(s) && Controls(p.owners, o) && (o.kind != "ReplicaSet" || LeadsNowhere(s, o))
    ensures RefOf(IndexOf(s), p) == r <==> IsOf(s, p, r)
  {
    ControlsIff(p.owners, o);
    forall q | Controls(p.owners, q) ensures q == o { OneController(p.owners, o, q); }
    if o.kind == "ReplicaSet" { SetMissing(s, o); }
  }

  /** A pod is grouped under a workload exactly when it is that workload's. */
  lemma GroupedUnder(s: Snapshot, p: Pod, r: Ref)
    requires DistinctSets(s)
    ensures RefOf(IndexOf(s), p) == r <==> IsOf(s, p, r)
  {
    Uncontrolled(p.owners);
    if ControllerOf(p.owners).Some? {
      var o := ControllerOf(p.owners).value;
      ControlsIff(p.owners, o);
      if o.kind == "ReplicaSet" && !LeadsNowhere(s, o) {
        var rs :| rs in s.replicaSets && rs.uid == o.uid;
        LedTo(s, p, o, rs, r);
      } else {
        LedNowhere(s, p, o, r);
      }
    }
  }

  /** The available pods of a Deployment, in snapshot order: those of its ReplicaSets, and those it
      controls itself. */
  lemma DeploymentMembers(s: Snapshot, c: Controller, p: Pod)
    requires DistinctSets(s)
    ensures p in Survive.Members(IndexOf(s), s.pods, Ref("Deployment", c.namespace, c.name)) <==>
      && p in s.pods && p.Available()
      && (RolledOut(s, p, c.namespace, c.name) || Directly(p, "Deployment", c.namespace, c.name))
  {
    Survive.MembersOf(IndexOf(s), s.pods, Ref("Deployment", c.namespace, c.name));
    GroupedUnder(s, p, Ref("Deployment", c.namespace, c.name));
  }

  /** Those of a StatefulSet. */
  lemma StatefulSetMembers(s: Snapshot, c: Controller, p: Pod)
    requires DistinctSets(s)
    ensures p in Survive.Members(IndexOf(s), s.pods, Ref("StatefulSet", c.namespace, c.name)) <==>
      p in s.pods && p.Available() && Directly(p, "StatefulSet", c.namespace, c.name)
  {
    Survive.MembersOf(IndexOf(s), s.pods, Ref("StatefulSet", c.namespace, c.name));
    GroupedUnder(s, p, Ref("StatefulSet", c.namespace, c.name));
  }

  function ServingFor(idx: Index, r: Ref): (f: Pod -> bool) { (p: Pod) => p.Available() && RefOf(idx, p) == r }

  /** The members are selected from the snapshot, none twice and in its order. */
  lemma {:induction false} MembersSelected(idx: Index, pods: seq<Pod>, r: Ref)
    ensures Survive.Members(idx, pods, r) == Filter(pods, ServingFor(idx, r))
  {
    if pods != [] { MembersSelected(idx, pods[..|pods| - 1], r); }
  }

  // ---------------------------------------------------------------- how many there should be

  ghost predicate DistinctNames(cs: seq<Controller>) {
    forall i, j :: 0 <= i < j < |cs| ==> cs[i].namespace != cs[j].namespace || cs[i].name != cs[j].name
  }

  /** The controller of that name declares that count. */
  ghost predicate Declares(cs: seq<Controller>, namespace: string, name: string, n: int) {
    exists c :: c in cs && c.namespace == namespace && c.name == name && c.replicas == Some(n)
  }

  lemma {:induction false} DeclaredMeans(kind: string, cs: seq<Controller>, base: map<Ref, int>, r: Ref, n: int)
    requires DistinctNames(cs)
    ensures r in Declared(kind, cs, base) && Declared(kind, cs, base)[r] == n <==>
      if r.kind == kind && exists m :: Declares(cs, r.namespace, r.name, m) then Declares(cs, r.namespace, r.name, n)
      else r in base && base[r] == n
  {
    if cs != [] {
      var init, last := cs[..|cs| - 1], cs[|cs| - 1];
      assert cs == init + [last];
      DeclaredMeans(kind, init, base, r, n);
      forall m ensures Declares(cs, r.namespace, r.name, m) <==>
        || Declares(init, r.namespace, r.name, m)
        || (last.namespace == r.namespace && last.name == r.name && last.replicas == Some(m))
      {
        if Declares(cs, r.namespace, r.name, m) {
          var c :| c in cs && c.namespace == r.namespace && c.name == r.name && c.replicas == Some(m);
          assert c in init || c == last;
        }
      }
      if last.namespace == r.namespace && last.name == r.name {
        forall m ensures !Declares(init, r.namespace, r.name, m) { NotTwice(cs, m); }
      }
    }
  }

  lemma NotTwice(cs: seq<Controller>, m: int)
    requires cs != [] && DistinctNames(cs)
    ensures !Declares(cs[..|cs| - 1], cs[|cs| - 1].namespace, cs[|cs| - 1].name, m)
  {}

  /** The list of the workload's kind. */
  ghost predicate DeclaredBy(s: Snapshot, r: Ref, n: int) {
    || (r.kind == "Deployment" && Declares(s.deployments, r.namespace, r.name, n))
    || (r.kind == "StatefulSet" && Declares(s.statefulSets, r.namespace, r.name, n))
  }

  /** A budget's numbers are taken of the declared count, and of the available pods where the
      workload declares none. */
  lemma ReplicasMean(s: Snapshot, r: Ref, total: nat, n: int)
    requires DistinctNames(s.deployments) && DistinctNames(s.statefulSets)
    ensures Survive.Replicas(IndexOf(s), r, total) == n <==>
      if exists m :: DeclaredBy(s, r, m) then DeclaredBy(s, r, n) else n == total
  {
    forall m ensures Counts(s, r, m) <==> DeclaredBy(s, r, m) { CountsIff(s, r, m); }
    if m :| DeclaredBy(s, r, m) { assert Counts(s, r, m); }
    if r in IndexOf(s).replicas { assert Counts(s, r, IndexOf(s).replicas[r]); }
  }

  ghost predicate Counts(s: Snapshot, r: Ref, n: int) { r in IndexOf(s).replicas && IndexOf(s).replicas[r] == n }

  lemma CountsIff(s: Snapshot, r: Ref, n: int)
    requires DistinctNames(s.deployments) && DistinctNames(s.statefulSets)
    ensures Counts(s, r, n) <==> DeclaredBy(s, r, n)
  {
    DeclaredMeans("Deployment", s.deployments, map[], r, n);
    DeclaredMeans("StatefulSet", s.statefulSets, Declared("Deployment", s.deployments, map[]), r, n);
  }
}
