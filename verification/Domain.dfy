/** internal/domain: which failure domain a node belongs to. */
module Domain {
  import opened Basics
  import opened Cluster

  const LABEL_ZONE := "topology.kubernetes.io/zone"
  const LABEL_ZONE_DEPRECATED := "failure-domain.beta.kubernetes.io/zone"

  function Label(node: Node, key: string): (r: Option<string>) {
    if key in node.labels && node.labels[key] != "" then Some(node.labels[key]) else None
  }

  /** The node's domain; the deprecated label is consulted for the stable key only. */
  function Of(node: Node, key: string): (r: Option<string>) {
    if Label(node, key).Some? then Label(node, key)
    else if key == LABEL_ZONE then Label(node, LABEL_ZONE_DEPRECATED)
    else None
  }

  ghost predicate Labelled(node: Node, key: string, d: string) { d != "" && (key, d) in node.labels.Items }

  /** A node's domain in terms of its labels' entries. */
  lemma OfMeans(node: Node, key: string, d: string)
    ensures Of(node, key) == Some(d) <==>
      || Labelled(node, key, d)
      || (key == "topology.kubernetes.io/zone" && Labelled(node, "failure-domain.beta.kubernetes.io/zone", d)
          && forall v :: !Labelled(node, key, v))
  {
    forall k, v ensures Labelled(node, k, v) <==> Label(node, k) == Some(v) {
      if k in node.labels { assert (k, node.labels[k]) in node.labels.Items; }
    }
    assert Label(node, key).Some? ==> Labelled(node, key, Label(node, key).value);
  }

  /** An empty label value never names a domain. */
  lemma OfNeverEmpty(node: Node, key: string)
    ensures Of(node, key) != Some("")
  {}

  /** The names of the nodes with a given answer, in snapshot order. */
  function Bucket(nodes: seq<Node>, key: string, d: Option<string>): (r: seq<string>) {
    if nodes == [] then []
    else
      var rest := Bucket(nodes[..|nodes| - 1], key, d);
      if Of(nodes[|nodes| - 1], key) == d then rest + [nodes[|nodes| - 1].name] else rest
  }

  function Answers(key: string, d: Option<string>): (f: Node -> bool) { (n: Node) => Of(n, key) == d }

  /** The bucket's i-th name is that of the i-th such node. */
  lemma {:induction false} BucketIs(nodes: seq<Node>, key: string, d: Option<string>)
    ensures |Bucket(nodes, key, d)| == |Filter(nodes, Answers(key, d))|
    ensures forall i :: 0 <= i < |Bucket(nodes, key, d)| ==>
      Bucket(nodes, key, d)[i] == Filter(nodes, Answers(key, d))[i].name
  {
    if nodes != [] { BucketIs(nodes[..|nodes| - 1], key, d); }
  }

  /** The labelled domains of a cluster. */
  function DomainsOf(nodes: seq<Node>, key: string): (r: set<string>) {
    if nodes == [] then {}
    else
      var rest := DomainsOf(nodes[..|nodes| - 1], key);
      match Of(nodes[|nodes| - 1], key)
      case Some(d) => rest + {d}
      case None => rest
  }

  lemma {:induction false} DomainsMembers(nodes: seq<Node>, key: string, d: string)
    ensures d in DomainsOf(nodes, key) <==> exists i :: 0 <= i < |nodes| && Of(nodes[i], key) == Some(d)
  {
    if nodes != [] {
      var init, last := nodes[..|nodes| - 1], nodes[|nodes| - 1];
      DomainsMembers(init, key, d);
      assert forall i :: 0 <= i < |init| ==> nodes[i] == init[i];
      if i :| 0 <= i < |nodes| && Of(nodes[i], key) == Some(d) {
        if i < |init| { assert Of(init[i], key) == Some(d); }
      }
      if d in DomainsOf(nodes, key) && d !in DomainsOf(init, key) {
        assert Of(nodes[|nodes| - 1], key) == Some(d);
      }
    }
  }

  lemma DomainNonEmpty(nodes: seq<Node>, key: string, d: string)
    requires d in DomainsOf(nodes, key)
    ensures d != ""
  {
    DomainsMembers(nodes, key, d);
  }

  lemma BucketsStep(nodes: seq<Node>, i: nat, key: string)
    requires i < |nodes|
    ensures DomainsOf(nodes[..i + 1], key)
         == if Of(nodes[i], key).Some? then DomainsOf(nodes[..i], key) + {Of(nodes[i], key).value}
            else DomainsOf(nodes[..i], key)
    ensures forall d :: Bucket(nodes[..i + 1], key, d)
                     == if Of(nodes[i], key) == d then Bucket(nodes[..i], key, d) + [nodes[i].name]
                        else Bucket(nodes[..i], key, d)
  {
    assert nodes[..i + 1][..i] == nodes[..i];
  }

  ghost predicate Buckets(nodes: seq<Node>, key: string, groups: map<string, seq<string>>) {
    && groups.Keys == DomainsOf(nodes, key)
    && forall d :: d in groups ==> multiset(groups[d]) == multiset(Bucket(nodes, key, Some(d)))
  }

  /** Every node lands in exactly one sorted bucket: its domain's, or the unlabelled one. */
  method Group(nodes: seq<Node>, key: string) returns (groups: map<string, seq<string>>, unlabelled: seq<string>)
    ensures Buckets(nodes, key, groups)
    ensures forall d :: d in groups ==> SortedBy(groups[d], StrLe)
    ensures multiset(unlabelled) == multiset(Bucket(nodes, key, None))
    ensures SortedBy(unlabelled, StrLe)
  {
    groups, unlabelled := Gather(nodes, key);
    groups := SortBuckets(groups);
    StrOrder();
    unlabelled := SortSlice(unlabelled, StrLe);
  }

  ghost predicate Gathered(nodes: seq<Node>, key: string, groups: map<string, seq<string>>, unlabelled: seq<string>) {
    && groups.Keys == DomainsOf(nodes, key)
    && (forall d :: d in groups ==> groups[d] == Bucket(nodes, key, Some(d)))
    && (forall d :: d !in groups ==> Bucket(nodes, key, Some(d)) == [])
    && unlabelled == Bucket(nodes, key, None)
  }

  method Gather(nodes: seq<Node>, key: string) returns (groups: map<string, seq<string>>, unlabelled: seq<string>)
    ensures Gathered(nodes, key, groups, unlabelled)
  {
    groups, unlabelled := map[], [];
    for i := 0 to |nodes|
      invariant Gathered(nodes[..i], key, groups, unlabelled)
    {
      BucketsStep(nodes, i, key);
      var home := Of(nodes[i], key);
      if home.Some? {
        var names := if home.value in groups then groups[home.value] else [];
        groups := groups[home.value := names + [nodes[i].name]];
      } else {
        unlabelled := unlabelled + [nodes[i].name];
      }
    }
    assert nodes[..|nodes|] == nodes;
  }

  method SortBuckets(groups: map<string, seq<string>>) returns (sorted: map<string, seq<string>>)
    ensures sorted.Keys == groups.Keys
    ensures forall d :: d in groups ==> multiset(sorted[d]) == multiset(groups[d]) && SortedBy(sorted[d], StrLe)
  {
    StrOrder();
    sorted := groups;
    var rest := groups.Keys;
    while rest != {}
      invariant rest <= groups.Keys && sorted.Keys == groups.Keys
      invariant forall d :: d in groups ==> multiset(sorted[d]) == multiset(groups[d])
      invariant forall d :: d in groups && d !in rest ==> SortedBy(sorted[d], StrLe)
      decreases rest
    {
      var d :| d in rest;
      var names := SortSlice(sorted[d], StrLe);
      sorted := sorted[d := names];
      rest := rest - {d};
    }
  }

  /** The domain a node name resolves to, "" when it names no labelled node. */
  function DomainOfName(nodes: seq<Node>, key: string, name: string): (r: string) {
    if nodes == [] then ""
    else
      var last := nodes[|nodes| - 1];
      if last.name == name && Of(last, key).Some? then Of(last, key).value
      else DomainOfName(nodes[..|nodes| - 1], key, name)
  }

  // ---------------------------------------------------------------- the key's own label

  /** The values of the key's own label, the deprecated one not consulted. */
  function Values(nodes: seq<Node>, key: string): (r: set<string>) {
    set n | n in nodes && Label(n, key).Some? :: Label(n, key).value
  }

  /** The value a node name resolves to, "" when it names no node that carries the key. */
  function ValueOfName(nodes: seq<Node>, key: string, name: string): (r: string) {
    if nodes == [] then ""
    else
      var last := nodes[|nodes| - 1];
      if last.name == name && Label(last, key).Some? then Label(last, key).value
      else ValueOfName(nodes[..|nodes| - 1], key, name)
  }

  lemma {:induction false} ValueOfNameMiss(nodes: seq<Node>, key: string, name: string)
    requires forall i :: 0 <= i < |nodes| ==> nodes[i].name != name
    ensures ValueOfName(nodes, key, name) == ""
  {
    if nodes != [] { ValueOfNameMiss(nodes[..|nodes| - 1], key, name); }
  }

  lemma {:induction false} ValueOfNameHit(nodes: seq<Node>, key: string, i: nat)
    requires UniqueNames(nodes) && i < |nodes|
    ensures ValueOfName(nodes, key, nodes[i].name) ==
      if Label(nodes[i], key).Some? then Label(nodes[i], key).value else ""
  {
    var init := nodes[..|nodes| - 1];
    if i == |nodes| - 1 {
      if Label(nodes[i], key).None? { ValueOfNameMiss(init, key, nodes[i].name); }
    } else {
      assert init[i] == nodes[i];
      ValueOfNameHit(init, key, i);
    }
  }

  lemma {:induction false} NamedValue(nodes: seq<Node>, key: string, name: string)
    requires ValueOfName(nodes, key, name) != ""
    ensures ValueOfName(nodes, key, name) in Values(nodes, key)
  {
    var init, last := nodes[..|nodes| - 1], nodes[|nodes| - 1];
    if !(last.name == name && Label(last, key).Some?) {
      NamedValue(init, key, name);
      assert forall n :: n in init ==> n in nodes;
    }
  }

  /** Every value of the label is a domain; the deprecated label can name more. */
  lemma ValuesAreDomains(nodes: seq<Node>, key: string)
    ensures Values(nodes, key) <= DomainsOf(nodes, key)
  {
    forall d | d in Values(nodes, key) ensures d in DomainsOf(nodes, key) {
      var n :| n in nodes && Label(n, key) == Some(d);
      var i :| 0 <= i < |nodes| && nodes[i] == n;
      DomainsMembers(nodes, key, d);
    }
  }

  // ---------------------------------------------------------------- the lookup by node name

  /** The lookup the report and the drain check build from Group's buckets. */
  method NodeDomains(nodes: seq<Node>, key: string, groups: map<string, seq<string>>)
    returns (byNode: map<string, string>)
    requires UniqueNames(nodes) && Buckets(nodes, key, groups)
    ensures NodeLookup(nodes, key, byNode)
  {
    byNode := map[];
    var rest := groups.Keys;
    while rest != {}
      invariant rest <= groups.Keys
      invariant forall d, n :: d in groups && d !in rest && n in groups[d] ==> n in byNode
      invariant forall n :: n in byNode ==> byNode[n] in groups && n in groups[byNode[n]]
      decreases rest
    {
      var d :| d in rest;
      byNode := Enter(byNode, groups[d], d);
      rest := rest - {d};
    }
    forall n | n in byNode ensures byNode[n] == DomainOfName(nodes, key, n) && byNode[n] != "" {
      BucketMember(nodes, key, byNode[n], n, groups[byNode[n]]);
    }
    forall n | DomainOfName(nodes, key, n) != "" ensures n in byNode {
      var d := DomainOfName(nodes, key, n);
      NameInBucket(nodes, key, n);
      assert n in multiset(groups[d]);
    }
  }

  ghost predicate NodeLookup(nodes: seq<Node>, key: string, byNode: map<string, string>) {
    && (forall n :: n in byNode <==> DomainOfName(nodes, key, n) != "")
    && (forall n :: n in byNode ==> byNode[n] == DomainOfName(nodes, key, n))
  }

  method Enter(byNode: map<string, string>, names: seq<string>, d: string) returns (r: map<string, string>)
    ensures forall n :: n in r <==> n in byNode || n in names
    ensures forall n :: n in r ==> r[n] == if n in names then d else byNode[n]
  {
    r := byNode;
    for i := 0 to |names|
      invariant forall n :: n in r <==> n in byNode || n in names[..i]
      invariant forall n :: n in r ==> r[n] == if n in names[..i] then d else byNode[n]
    {
      assert names[..i + 1] == names[..i] + [names[i]];
      r := r[names[i] := d];
    }
    assert names[..|names|] == names;
  }

  lemma {:induction false} DomainOfNameHit(nodes: seq<Node>, key: string, i: nat)
    requires UniqueNames(nodes) && i < |nodes|
    ensures DomainOfName(nodes, key, nodes[i].name) == if Of(nodes[i], key).Some? then Of(nodes[i], key).value else ""
  {
    var init := nodes[..|nodes| - 1];
    if i == |nodes| - 1 {
      if Of(nodes[i], key).None? { DomainOfNameMiss(init, key, nodes[i].name); }
    } else {
      assert init[i] == nodes[i];
      DomainOfNameHit(init, key, i);
    }
  }

  lemma {:induction false} DomainOfNameMiss(nodes: seq<Node>, key: string, name: string)
    requires forall i :: 0 <= i < |nodes| ==> nodes[i].name != name
    ensures DomainOfName(nodes, key, name) == ""
  {
    if nodes != [] { DomainOfNameMiss(nodes[..|nodes| - 1], key, name); }
  }

  lemma BucketMember(nodes: seq<Node>, key: string, d: string, name: string, bucket: seq<string>)
    requires UniqueNames(nodes)
    requires multiset(bucket) == multiset(Bucket(nodes, key, Some(d))) && name in bucket
    ensures DomainOfName(nodes, key, name) == d && d != ""
  {
    assert name in multiset(bucket);
    var i := BucketWitness(nodes, key, d, name);
    DomainOfNameHit(nodes, key, i);
  }

  lemma {:induction false} NameInBucket(nodes: seq<Node>, key: string, name: string)
    requires DomainOfName(nodes, key, name) != ""
    ensures name in Bucket(nodes, key, Some(DomainOfName(nodes, key, name)))
    ensures DomainOfName(nodes, key, name) in DomainsOf(nodes, key)
  {
    var init, last := nodes[..|nodes| - 1], nodes[|nodes| - 1];
    assert nodes == init + [last];
    if !(last.name == name && Of(last, key).Some?) { NameInBucket(init, key, name); }
  }

  lemma {:induction false} BucketWitness(nodes: seq<Node>, key: string, d: string, name: string) returns (i: nat)
    requires name in Bucket(nodes, key, Some(d))
    ensures i < |nodes| && nodes[i].name == name && Of(nodes[i], key) == Some(d)
  {
    var last := nodes[|nodes| - 1];
    if last.name == name && Of(last, key) == Some(d) {
      i := |nodes| - 1;
    } else {
      i := BucketWitness(nodes[..|nodes| - 1], key, d, name);
    }
  }
}
