/** What a verdict records besides its outcome, read off the cluster's objects. */
module VerdictFacts {
  import opened Basics
  import opened Cluster
  import opened Workload
  import opened Survive
  import WorkloadFacts
  import SurviveFacts
  import Domain
  import Spread
  import VolumePin
  import DepGraph

  // ---------------------------------------------------------------- pins

  ghost predicate Same(p: VolumePin.Pin, q: VolumePin.Pin) { p.volume == q.volume && p.domain == q.domain }

  /** Volume names have no bar, as Kubernetes names do not. */
  ghost predicate NoBars(pins: seq<VolumePin.Pin>) { forall i :: 0 <= i < |pins| ==> '|' !in pins[i].volume }

  lemma {:induction false} BarSplits(a: string, b: string, c: string, d: string)
    requires a + "|" + b == c + "|" + d && '|' !in a && '|' !in c
    ensures a == c && b == d
  {
    var s := a + "|" + b;
    assert s[|a|] == '|' && s[|c|] == '|';
    assert forall i :: 0 <= i < |a| ==> s[i] == a[i];
    assert forall i :: 0 <= i < |c| ==> s[i] == c[i];
    assert a == s[..|a|] && c == s[..|c|];
    assert b == s[|a| + 1..] && d == s[|c| + 1..];
  }

  lemma KeyTellsApart(p: VolumePin.Pin, q: VolumePin.Pin)
    requires '|' !in p.volume && '|' !in q.volume
    ensures PinKey(p) == PinKey(q) <==> Same(p, q)
  {
    if PinKey(p) == PinKey(q) { BarSplits(p.volume, p.domain, q.volume, q.domain); }
  }

  /** Each element once: none is the same as another. */
  ghost predicate NoneTwice(pins: seq<VolumePin.Pin>) {
    forall i, j :: 0 <= i < j < |pins| ==> !Same(pins[i], pins[j])
  }

  ghost predicate Represents(pins: seq<VolumePin.Pin>, q: VolumePin.Pin) {
    exists i :: 0 <= i < |pins| && Same(pins[i], q)
  }

  /** Adding pins keeps those there, in place, and represents each of the new ones once. */
  lemma {:induction false} AddPinsMeans(acc: seq<VolumePin.Pin>, more: seq<VolumePin.Pin>)
    requires NoBars(acc) && NoBars(more) && NoneTwice(acc)
    ensures acc <= AddPins(acc, more) && NoBars(AddPins(acc, more)) && NoneTwice(AddPins(acc, more))
    ensures forall p :: p in AddPins(acc, more) ==> p in acc || p in more
    ensures forall q :: q in more ==> Represents(AddPins(acc, more), q)
  {
    if more != [] {
      var init, last := more[..|more| - 1], more[|more| - 1];
      assert more == init + [last];
      AddPinsMeans(acc, init);
      AddOne(AddPins(acc, init), last);
      forall q | q in init ensures Represents(AddPins(acc, more), q) {
        var i :| 0 <= i < |AddPins(acc, init)| && Same(AddPins(acc, init)[i], q);
        assert AddPins(acc, more)[i] == AddPins(acc, init)[i];
      }
    }
  }

  lemma AddOne(rest: seq<VolumePin.Pin>, last: VolumePin.Pin)
    requires NoBars(rest) && '|' !in last.volume && NoneTwice(rest)
    ensures (exists i :: 0 <= i < |rest| && PinKey(rest[i]) == PinKey(last)) <==> Represents(rest, last)
    ensures !Represents(rest, last) ==> NoneTwice(rest + [last]) && Represents(rest + [last], last)
  {
    forall i | 0 <= i < |rest| ensures PinKey(rest[i]) == PinKey(last) <==> Same(rest[i], last) {
      KeyTellsApart(rest[i], last);
    }
    if !Represents(rest, last) { assert (rest + [last])[|rest|] == last; }
  }

  function PodPins(s: Snapshot, key: string, p: Pod): (r: seq<VolumePin.Pin>) {
    VolumePin.PinsOf(s, p.namespace, p.spec.claims, key)
  }

  ghost predicate PlainVolumes(s: Snapshot) { forall v :: v in s.volumes ==> '|' !in v.name }

  lemma {:induction false} PodPinsPlain(s: Snapshot, namespace: string, claims: seq<string>, key: string)
    requires PlainVolumes(s)
    ensures NoBars(VolumePin.PinsOf(s, namespace, claims, key))
  {
    if claims != [] { PodPinsPlain(s, namespace, claims[..|claims| - 1], key); }
  }

  /** The pins of a verdict: those of the replicas, each volume and domain once. */
  lemma {:induction false} CollectedPins(s: Snapshot, key: string, pods: seq<Pod>)
    requires PlainVolumes(s)
    ensures NoBars(PinsOf(s, key, pods)) && NoneTwice(PinsOf(s, key, pods))
    ensures forall p :: p in PinsOf(s, key, pods) ==> exists pod :: pod in pods && p in PodPins(s, key, pod)
    ensures forall pod, q :: pod in pods && q in PodPins(s, key, pod) ==> Represents(PinsOf(s, key, pods), q)
  {
    if pods != [] {
      var init, last := pods[..|pods| - 1], pods[|pods| - 1];
      assert pods == init + [last];
      CollectedPins(s, key, init);
      PodPinsPlain(s, last.namespace, last.spec.claims, key);
      AddPinsMeans(PinsOf(s, key, init), PodPins(s, key, last));
      forall p | p in PinsOf(s, key, pods) ensures exists pod :: pod in pods && p in PodPins(s, key, pod) {
        if p in PinsOf(s, key, init) {
          var pod :| pod in init && p in PodPins(s, key, pod);
          assert pod in pods;
        } else {
          assert last in pods && p in PodPins(s, key, last);
        }
      }
      forall pod, q | pod in pods && q in PodPins(s, key, pod) ensures Represents(PinsOf(s, key, pods), q) {
        if pod in init {
          assert Represents(PinsOf(s, key, init), q);
          var i :| 0 <= i < |PinsOf(s, key, init)| && Same(PinsOf(s, key, init)[i], q);
          assert PinsOf(s, key, pods)[i] == PinsOf(s, key, init)[i];
        }
      }
    }
  }

  /** A replica mounts a volume that some domain has to itself. */
  ghost predicate MountsTied(s: Snapshot, key: string, p: Pod) {
    exists c, v, d :: VolumePin.Mounts(s, p.namespace, p.spec.claims, c, v) && VolumePin.TiedTo(v, key, d)
  }

  /** A workload counts as pinned exactly when one of its replicas mounts such a volume. */
  lemma PinnedMeans(s: Snapshot, key: string, pods: seq<Pod>)
    requires PlainVolumes(s) && VolumePin.Proper(s) && forall p :: p in pods ==> '/' !in p.namespace
    ensures PinsOf(s, key, pods) != [] <==> exists p :: p in pods && MountsTied(s, key, p)
  {
    CollectedPins(s, key, pods);
    if PinsOf(s, key, pods) != [] {
      var pin := PinsOf(s, key, pods)[0];
      assert pin in PinsOf(s, key, pods);
      var p :| p in pods && pin in PodPins(s, key, p);
      VolumePin.PinsMean(s, p.namespace, p.spec.claims, key, pin);
      var c, v :| VolumePin.Mounts(s, p.namespace, p.spec.claims, c, v) && VolumePin.TiedTo(v, key, pin.domain)
        && pin == VolumePin.Pin(c.name, v.name, pin.domain);
      assert MountsTied(s, key, p);
    }
    if p :| p in pods && MountsTied(s, key, p) {
      var c, v, d :| VolumePin.Mounts(s, p.namespace, p.spec.claims, c, v) && VolumePin.TiedTo(v, key, d);
      VolumePin.PinsMean(s, p.namespace, p.spec.claims, key, VolumePin.Pin(c.name, v.name, d));
      assert VolumePin.Pin(c.name, v.name, d) in PodPins(s, key, p);
    }
  }

  // ---------------------------------------------------------------- the other fields

  /** The number the workload is meant to have: declared, or else what is available. */
  ghost predicate MeantFor(s: Snapshot, r: Ref, total: nat, n: int) {
    if exists m :: WorkloadFacts.DeclaredBy(s, r, m) then WorkloadFacts.DeclaredBy(s, r, n) else n == total
  }

  /** A verdict's protection is judged for the replicas the workload is meant to have, over the
      domains of the cluster, by the constraints of its first available pod. */
  lemma VerdictProtection(s: Snapshot, key: string, urlHost: DepGraph.UrlHost, g: DepGraph.Graph, refs: seq<Ref>,
                          report: Report, i: nat, j: nat, n: int)
    requires IsReport(s, IndexOf(s), key, urlHost, g, refs, report)
    requires i < |report.domains| && j < |report.domains[i].verdicts|
    requires WorkloadFacts.DistinctNames(s.deployments) && WorkloadFacts.DistinctNames(s.statefulSets)
    requires var r := report.domains[i].verdicts[j].workload;
      MeantFor(s, r, |Members(IndexOf(s), s.pods, r)|, n)
    ensures var v := report.domains[i].verdicts[j];
      var pods := Members(IndexOf(s), s.pods, v.workload);
      && pods != []
      && v.pins == PinsOf(s, key, pods)
      && v.antiAffinity == Spread.AntiAffinityState(pods[0].spec.antiAffinity, key)
      && (forall d :: Spread.At(v.placement, d) == |Filter(pods, RunsIn(s, key, d))|)
      && (|Domain.DomainsOf(s.nodes, key)| >= 2 ==>
            (v.spread == Spread.Enforced <==>
              || Spread.Forces(pods[0].spec.spread, key, n)
              || Spread.MinDomainsDecides(pods[0].spec.spread, key, n, |Domain.DomainsOf(s.nodes, key)|)))
  {
    var r := report.domains[i].verdicts[j].workload;
    SurviveFacts.VerdictOwner(s, key, urlHost, g, refs, report, i, j);
    FullRow(s, key, urlHost, g, refs, report, i, j);
    WorkloadFacts.ReplicasMean(s, r, |Members(IndexOf(s), s.pods, r)|, n);
    FieldsOf(s, key, r, Members(IndexOf(s), s.pods, r), report.domains[i].domain, |Domain.DomainsOf(s.nodes, key)|);
  }

  lemma FieldsOf(s: Snapshot, key: string, r: Ref, pods: seq<Pod>, d: string, count: nat)
    requires pods != []
    ensures var v := VerdictOf(s, IndexOf(s), key, r, pods, d, count);
      var n := Replicas(IndexOf(s), r, |pods|);
      && v.pins == PinsOf(s, key, pods)
      && v.antiAffinity == Spread.AntiAffinityState(pods[0].spec.antiAffinity, key)
      && (forall e :: Spread.At(v.placement, e) == |Filter(pods, RunsIn(s, key, e))|)
      && (count >= 2 ==>
            (v.spread == Spread.Enforced <==>
              || Spread.Forces(pods[0].spec.spread, key, n)
              || Spread.MinDomainsDecides(pods[0].spec.spread, key, n, count)))
  {
    if count >= 2 { EnforcedMeans(pods[0].spec.spread, key, Replicas(IndexOf(s), r, |pods|), count); }
    forall e ensures Spread.At(PlacementOf(s, key, pods), e) == |Filter(pods, RunsIn(s, key, e))| {
      PlacementCounts(s, key, pods, e);
    }
  }

  lemma EnforcedMeans(cs: seq<SpreadConstraint>, key: string, n: int, count: nat)
    requires count >= 2
    ensures Spread.StateOf(cs, key, n, count) == Spread.Enforced <==>
      Spread.Forces(cs, key, n) || Spread.MinDomainsDecides(cs, key, n, count)
  {
    Spread.ForcesIff(cs, key, n);
  }

  lemma FullRow(s: Snapshot, key: string, urlHost: DepGraph.UrlHost, g: DepGraph.Graph, refs: seq<Ref>,
                report: Report, i: nat, j: nat)
    requires IsReport(s, IndexOf(s), key, urlHost, g, refs, report)
    requires i < |report.domains| && j < |report.domains[i].verdicts|
    ensures var v := report.domains[i].verdicts[j];
      v == VerdictOf(s, IndexOf(s), key, v.workload, Members(IndexOf(s), s.pods, v.workload), report.domains[i].domain,
                     |Domain.DomainsOf(s.nodes, key)|)
  {
    var res := report.domains[i];
    ListsSize(DomainNames(report), Domain.DomainsOf(s.nodes, key));
    assert IsDomainResult(s, IndexOf(s), key, g, refs, |report.domains|, res);
    assert VerdictAt(s, IndexOf(s), key, refs, |report.domains|, res, j);
  }
}
