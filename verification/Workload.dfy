/** internal/workload: from a pod to the workload an operator names. */
module Workload {
  import opened Basics
  import opened Cluster

  datatype Index = Index(replicaSets: map<string, ReplicaSet>, replicas: map<Ref, int>)

  function ReplicaSetUid(): (f: ReplicaSet -> string) { (rs: ReplicaSet) => rs.uid }

  /** Declared replica counts, controllers that leave the field unset being skipped. */
  function Declared(kind: string, controllers: seq<Controller>, base: map<Ref, int>): (r: map<Ref, int>) {
    if controllers == [] then base
    else
      var c := controllers[|controllers| - 1];
      var m := Declared(kind, controllers[..|controllers| - 1], base);
      if c.replicas.Some? then m[Ref(kind, c.namespace, c.name) := c.replicas.value] else m
  }

  function IndexOf(s: Snapshot): (r: Index) {
    Index(
      IndexBy(s.replicaSets, ReplicaSetUid()),
      Declared("StatefulSet", s.statefulSets, Declared("Deployment", s.deployments, map[])))
  }

  method NewIndex(s: Snapshot) returns (idx: Index)
    ensures idx == IndexOf(s)
  {
    var sets := BuildIndex(s.replicaSets, ReplicaSetUid());
    var counts := AddDeclared("Deployment", s.deployments, map[]);
    counts := AddDeclared("StatefulSet", s.statefulSets, counts);
    idx := Index(sets, counts);
  }

  method AddDeclared(kind: string, controllers: seq<Controller>, base: map<Ref, int>) returns (m: map<Ref, int>)
    ensures m == Declared(kind, controllers, base)
  {
    m := base;
    for i := 0 to |controllers|
      invariant m == Declared(kind, controllers[..i], base)
    {
      assert controllers[..i + 1][..i] == controllers[..i];
      var c := controllers[i];
      if c.replicas.Some? {
        m := m[Ref(kind, c.namespace, c.name) := c.replicas.value];
      }
    }
    assert controllers[..|controllers|] == controllers;
  }

  /** The first owner reference marked as the controller. */
  function ControllerOf(owners: seq<OwnerRef>): (r: Option<OwnerRef>) {
    if owners == [] then None
    else if owners[0].controller then Some(owners[0])
    else ControllerOf(owners[1..])
  }

  /** At most one reference can decide, wherever it stands: an answer is a controller with no
      controller before it, and no answer means there is none at all. */
  lemma {:induction false} ControllerFirst(owners: seq<OwnerRef>)
    ensures ControllerOf(owners).None? <==> forall i :: 0 <= i < |owners| ==> !owners[i].controller
    ensures ControllerOf(owners).Some? ==>
      exists i :: IsFirstController(owners, i) && ControllerOf(owners).value == owners[i]
  {
    if owners != [] && !owners[0].controller {
      var rest := owners[1..];
      ControllerFirst(rest);
      assert forall i :: 1 <= i < |owners| ==> owners[i] == rest[i - 1];
      if i :| IsFirstController(rest, i) && ControllerOf(rest) == Some(rest[i]) {
        assert IsFirstController(owners, i + 1);
      }
    } else if owners != [] {
      assert IsFirstController(owners, 0);
    }
  }

  ghost predicate IsFirstController(owners: seq<OwnerRef>, i: int) {
    0 <= i < |owners| && owners[i].controller && forall j :: 0 <= j < i ==> !owners[j].controller
  }

  /** Pod -> ReplicaSet -> Deployment where that chain exists. */
  function Owner(idx: Index, pod: Pod): (r: Option<Ref>) {
    match ControllerOf(pod.owners)
    case None => None
    case Some(ctrl) =>
      if ctrl.kind != "ReplicaSet" then Some(Ref(ctrl.kind, pod.namespace, ctrl.name))
      else if ctrl.uid !in idx.replicaSets then Some(Ref("ReplicaSet", pod.namespace, ctrl.name))
      else
        var rs := idx.replicaSets[ctrl.uid];
        match ControllerOf(rs.owners)
        case Some(up) =>
          if up.kind == "Deployment" then Some(Ref("Deployment", rs.namespace, up.name))
          else Some(Ref("ReplicaSet", rs.namespace, rs.name))
        case None => Some(Ref("ReplicaSet", rs.namespace, rs.name))
  }

  /** The workload a pod is grouped under: its owner, or the bare pod itself. */
  function RefOf(idx: Index, pod: Pod): (r: Ref) {
    match Owner(idx, pod)
    case Some(r) => r
    case None => Ref("Pod", pod.namespace, pod.name)
  }

  predicate RefLe(a: Ref, b: Ref) { StrLe(a.Key(), b.Key()) }

  lemma RefOrder()
    ensures TotalPreorder(RefLe)
  {
    StrOrder();
    forall a: Ref, b: Ref ensures RefLe(a, b) || RefLe(b, a) { StrLeTotal(a.Key(), b.Key()); }
    forall a: Ref, b: Ref, c: Ref | RefLe(a, b) && RefLe(b, c) ensures RefLe(a, c) {
      StrLeTransitive(a.Key(), b.Key(), c.Key());
    }
  }
}
