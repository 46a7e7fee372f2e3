/** internal/volumepin: volumes that tie a pod to one failure domain. */
module VolumePin {
  import opened Basics
  import opened Cluster
  import Domain

  datatype Pin = Pin(claim: string, volume: string, domain: string)

  /** The label keys that name the domain: the deprecated key stands in for the stable one. */
  predicate NamesDomain(key: string, domainKey: string) {
    key == domainKey || (domainKey == Domain.LABEL_ZONE && key == Domain.LABEL_ZONE_DEPRECATED)
  }

  predicate Fixes(e: Expression, domainKey: string) {
    NamesDomain(e.key, domainKey) && e.op == OpIn && |e.values| == 1
  }

  /** What one term ends up with: the value of its last fixing expression, "" for none. */
  function TermDomain(es: seq<Expression>, domainKey: string): (r: string) {
    if es == [] then ""
    else if Fixes(es[|es| - 1], domainKey) then es[|es| - 1].values[0]
    else TermDomain(es[..|es| - 1], domainKey)
  }

  /** Pinned to `d`: there are terms, and every one of them ends up with `d`. */
  predicate PinsTo(terms: seq<Term>, domainKey: string, d: string) {
    && terms != []
    && d != ""
    && forall i | 0 <= i < |terms| :: TermDomain(terms[i].expressions, domainKey) == d
  }

  method SingleDomainOf(pv: Volume, domainKey: string) returns (d: Option<string>)
    ensures d.Some? ==> pv.terms.Some? && PinsTo(pv.terms.value, domainKey, d.value)
    ensures d.None? && pv.terms.Some? ==> forall v :: !PinsTo(pv.terms.value, domainKey, v)
  {
    if pv.terms.None? { return None; }
    var terms := pv.terms.value;
    if |terms| == 0 { return None; }
    var keys := [domainKey];
    if domainKey == Domain.LABEL_ZONE { keys := keys + [Domain.LABEL_ZONE_DEPRECATED]; }
    var pinned := "";
    for i := 0 to |terms|
      invariant pinned == "" <==> i == 0
      invariant forall j :: 0 <= j < i ==> TermDomain(terms[j].expressions, domainKey) == pinned
    {
      var found := FoundIn(terms[i].expressions, keys, domainKey);
      if found == "" { return None; }
      if pinned == "" {
        pinned := found;
      } else if pinned != found {
        assert TermDomain(terms[0].expressions, domainKey) == pinned;
        return None;
      }
    }
    d := Some(pinned);
  }

  method FoundIn(es: seq<Expression>, keys: seq<string>, domainKey: string) returns (found: string)
    requires forall k :: k in keys <==> NamesDomain(k, domainKey)
    ensures found == TermDomain(es, domainKey)
  {
    found := "";
    for i := 0 to |es|
      invariant found == TermDomain(es[..i], domainKey)
    {
      assert es[..i + 1][..i] == es[..i];
      var e := es[i];
      for j := 0 to |keys|
        invariant found == if e.key in keys[..j] && e.op == OpIn && |e.values| == 1
                           then e.values[0] else TermDomain(es[..i], domainKey)
      {
        if e.key == keys[j] && e.op == OpIn && |e.values| == 1 {
          found := e.values[0];
        }
      }
      assert keys[..|keys|] == keys;
    }
    assert es[..|es|] == es;
  }

  /** The function SingleDomainOf computes; PinsTo admits at most one domain. */
  function PinnedDomain(pv: Volume, domainKey: string): (r: Option<string>)
    ensures r.Some? ==> pv.terms.Some? && PinsTo(pv.terms.value, domainKey, r.value)
    ensures r.None? && pv.terms.Some? ==> forall v :: !PinsTo(pv.terms.value, domainKey, v)
  {
    if pv.terms.None? || pv.terms.value == [] then None
    else
      var d := TermDomain(pv.terms.value[0].expressions, domainKey);
      if PinsTo(pv.terms.value, domainKey, d) then Some(d) else None
  }

  /** An In expression of one value on the domain's label, or for the stable zone label on the
      deprecated one. */
  ghost predicate Decides(e: Expression, domainKey: string) {
    && e.op == OpIn && |e.values| == 1
    && (e.key == domainKey
        || (domainKey == "topology.kubernetes.io/zone" && e.key == "failure-domain.beta.kubernetes.io/zone"))
  }

  ghost predicate LastToDecide(es: seq<Expression>, domainKey: string, i: int) {
    0 <= i < |es| && Decides(es[i], domainKey) && forall j :: i < j < |es| ==> !Decides(es[j], domainKey)
  }

  /** What a term names is the value of the last expression that decides. */
  lemma {:induction false} TermMeans(es: seq<Expression>, domainKey: string, d: string)
    requires d != ""
    ensures TermDomain(es, domainKey) == d <==> exists i :: LastToDecide(es, domainKey, i) && es[i].values == [d]
  {
    if es != [] {
      var init, last := es[..|es| - 1], es[|es| - 1];
      assert Fixes(last, domainKey) <==> Decides(last, domainKey);
      assert forall i :: 0 <= i < |init| ==> init[i] == es[i];
      if Fixes(last, domainKey) {
        assert LastToDecide(es, domainKey, |init|);
        assert last.values == [last.values[0]];
      } else {
        TermMeans(init, domainKey, d);
        if i :| LastToDecide(init, domainKey, i) && init[i].values == [d] { assert LastToDecide(es, domainKey, i); }
        if i :| LastToDecide(es, domainKey, i) && es[i].values == [d] { assert LastToDecide(init, domainKey, i); }
      }
    }
  }

  // ---------------------------------------------------------------- what a pin means

  predicate MatchesExpression(e: Expression, labels: Labels) {
    match e.op
    case OpIn => e.key in labels && labels[e.key] in e.values
    case OpNotIn => e.key !in labels || labels[e.key] !in e.values
    case OpExists => e.key in labels
    case OpDoesNotExist => e.key !in labels
    case OpGt => e.key in labels
    case OpLt => e.key in labels
  }

  /** In is a choice among the values of the label, Exists of any; NotIn and DoesNotExist are their
      negations. */
  lemma ExpressionLaws(e: Expression, labels: Labels)
    ensures e.op == OpIn ==> (MatchesExpression(e, labels) <==> exists v :: v in e.values && (e.key, v) in labels.Items)
    ensures e.op == OpExists ==> (MatchesExpression(e, labels) <==> exists v :: (e.key, v) in labels.Items)
    ensures e.op == OpNotIn ==> (MatchesExpression(e, labels) <==> !MatchesExpression(e.(op := OpIn), labels))
    ensures e.op == OpDoesNotExist ==>
      (MatchesExpression(e, labels) <==> !MatchesExpression(e.(op := OpExists), labels))
  {
    if e.key in labels { assert (e.key, labels[e.key]) in labels.Items; }
  }

  /** A term is a conjunction; an empty one selects no node. */
  predicate MatchesTerm(t: Term, labels: Labels) {
    t.expressions != [] && forall i | 0 <= i < |t.expressions| :: MatchesExpression(t.expressions[i], labels)
  }

  /** Terms are alternatives. */
  predicate Reachable(terms: seq<Term>, node: Node) {
    exists i | 0 <= i < |terms| :: MatchesTerm(terms[i], node.labels)
  }

  /** The stable and the deprecated zone label, when both are set, say the same. */
  predicate LabelsAgree(node: Node) {
    var a, b := Domain.Label(node, Domain.LABEL_ZONE), Domain.Label(node, Domain.LABEL_ZONE_DEPRECATED);
    a.Some? && b.Some? ==> a == b
  }

  /** Only the zone key is read through two labels. */
  predicate Unambiguous(node: Node, domainKey: string) { domainKey == Domain.LABEL_ZONE ==> LabelsAgree(node) }

  lemma {:induction false} TermDomainSound(es: seq<Expression>, domainKey: string, node: Node)
    requires TermDomain(es, domainKey) != ""
    requires forall i | 0 <= i < |es| :: MatchesExpression(es[i], node.labels)
    requires Unambiguous(node, domainKey)
    ensures Domain.Of(node, domainKey) == Some(TermDomain(es, domainKey))
  {
    var last := es[|es| - 1];
    assert MatchesExpression(last, node.labels);
    if !Fixes(last, domainKey) {
      TermDomainSound(es[..|es| - 1], domainKey, node);
    }
  }

  /** Soundness: a volume reported as pinned to `d` is reachable only from nodes of `d`. */
  lemma PinSound(pv: Volume, domainKey: string, node: Node)
    requires PinnedDomain(pv, domainKey).Some?
    requires Reachable(pv.terms.value, node) && Unambiguous(node, domainKey)
    ensures Domain.Of(node, domainKey) == PinnedDomain(pv, domainKey)
  {
    var terms := pv.terms.value;
    var i :| 0 <= i < |terms| && MatchesTerm(terms[i], node.labels);
    TermDomainSound(terms[i].expressions, domainKey, node);
  }

  /** The agreement hypothesis is what migration can break: with disagreeing labels a
      node outside the pinned domain reaches the volume through its deprecated label. */
  lemma DisagreeingLabelsEscape() returns (pv: Volume, node: Node)
    ensures PinnedDomain(pv, Domain.LABEL_ZONE) == Some("a")
    ensures Reachable(pv.terms.value, node) && !LabelsAgree(node)
    ensures Domain.Of(node, Domain.LABEL_ZONE) == Some("b")
  {
    var e := Expression(Domain.LABEL_ZONE_DEPRECATED, OpIn, ["a"]);
    pv := Volume("pv", Some([Term([e])]));
    node := Node("n", map[Domain.LABEL_ZONE := "b", Domain.LABEL_ZONE_DEPRECATED := "a"]);
    assert TermDomain([e], Domain.LABEL_ZONE) == "a";
    assert MatchesExpression(e, node.labels);
    assert MatchesTerm(pv.terms.value[0], node.labels);
  }

  /** Of the term's expressions, the one at `j` is on a zone label and no other. */
  predicate ZoneAt(es: seq<Expression>, j: int) {
    && 0 <= j < |es| && NamesDomain(es[j].key, Domain.LABEL_ZONE)
    && forall k | 0 <= k < |es| && k != j :: !NamesDomain(es[k].key, Domain.LABEL_ZONE)
  }

  predicate OneZoneExpressionEach(terms: seq<Term>) {
    forall i | 0 <= i < |terms| :: exists j | 0 <= j < |terms[i].expressions| :: ZoneAt(terms[i].expressions, j)
  }

  /** Some labels satisfy the term's expressions on other keys, all together. */
  ghost predicate OthersSatisfiable(es: seq<Expression>) { exists labels :: SatisfiesOthers(es, labels) }

  predicate SatisfiesOthers(es: seq<Expression>, labels: Labels) {
    forall k | 0 <= k < |es| && !NamesDomain(es[k].key, Domain.LABEL_ZONE) :: MatchesExpression(es[k], labels)
  }

  /** The terms that can select a node at all use the stable label. */
  ghost predicate StableWherePossible(terms: seq<Term>) {
    forall i, j :: 0 <= i < |terms| && ZoneAt(terms[i].expressions, j) && OthersSatisfiable(terms[i].expressions) ==>
      terms[i].expressions[j].key == Domain.LABEL_ZONE
  }

  /** A node outside `d` that the deprecated label lets through. */
  function Escapee(d: string, labels: Labels): (node: Node) {
    Node("n", labels[Domain.LABEL_ZONE := d + "'"][Domain.LABEL_ZONE_DEPRECATED := d])
  }

  /** Exactly when a reported zone pin holds for every node, agreeing labels or not: among volumes
      whose terms have one expression on a zone label each, and any on other keys, those whose
      satisfiable terms use the stable label. */
  lemma ZonePinExact(pv: Volume, d: string)
    requires PinnedDomain(pv, Domain.LABEL_ZONE) == Some(d) && OneZoneExpressionEach(pv.terms.value)
    ensures (forall node :: Reachable(pv.terms.value, node) ==> Domain.Of(node, Domain.LABEL_ZONE) == Some(d))
       <==> StableWherePossible(pv.terms.value)
  {
    var terms := pv.terms.value;
    if StableWherePossible(terms) {
      forall node | Reachable(terms, node) ensures Domain.Of(node, Domain.LABEL_ZONE) == Some(d) {
        var i :| 0 <= i < |terms| && MatchesTerm(terms[i], node.labels);
        var j :| 0 <= j < |terms[i].expressions| && ZoneAt(terms[i].expressions, j);
        assert SatisfiesOthers(terms[i].expressions, node.labels);
        PinningExpression(terms, d, i, j);
        assert MatchesExpression(terms[i].expressions[j], node.labels);
      }
    } else {
      var i, j :| 0 <= i < |terms| && ZoneAt(terms[i].expressions, j) && OthersSatisfiable(terms[i].expressions)
        && terms[i].expressions[j].key != Domain.LABEL_ZONE;
      var labels :| SatisfiesOthers(terms[i].expressions, labels);
      PinningExpression(terms, d, i, j);
      EscapeeReaches(terms[i], d, j, labels);
      assert Reachable(terms, Escapee(d, labels)) && Domain.Of(Escapee(d, labels), Domain.LABEL_ZONE) != Some(d);
    }
  }

  lemma EscapeeReaches(t: Term, d: string, j: nat, labels: Labels)
    requires ZoneAt(t.expressions, j) && SatisfiesOthers(t.expressions, labels)
    requires t.expressions[j] == Expression(Domain.LABEL_ZONE_DEPRECATED, OpIn, [d])
    ensures MatchesTerm(t, Escapee(d, labels).labels)
  {
    forall k | 0 <= k < |t.expressions| ensures MatchesExpression(t.expressions[k], Escapee(d, labels).labels) {
      if k != j { assert MatchesExpression(t.expressions[k], labels); }
    }
  }

  /** In a pinning list each such expression fixes the domain. */
  lemma PinningExpression(terms: seq<Term>, d: string, i: nat, j: nat)
    requires PinsTo(terms, Domain.LABEL_ZONE, d) && i < |terms| && ZoneAt(terms[i].expressions, j)
    ensures Fixes(terms[i].expressions[j], Domain.LABEL_ZONE) && terms[i].expressions[j].values == [d]
  {
    LoneFixes(terms[i].expressions, j, d);
  }

  lemma {:induction false} LoneFixes(es: seq<Expression>, j: nat, d: string)
    requires ZoneAt(es, j) && TermDomain(es, Domain.LABEL_ZONE) == d != ""
    ensures Fixes(es[j], Domain.LABEL_ZONE) && es[j].values == [d]
  {
    var init := es[..|es| - 1];
    if j == |es| - 1 {
      if !Fixes(es[j], Domain.LABEL_ZONE) { NoneFixes(init); }
    } else {
      LoneFixes(init, j, d);
    }
  }

  lemma {:induction false} NoneFixes(es: seq<Expression>)
    requires forall k :: 0 <= k < |es| ==> !NamesDomain(es[k].key, Domain.LABEL_ZONE)
    ensures TermDomain(es, Domain.LABEL_ZONE) == ""
  {
    if es != [] { NoneFixes(es[..|es| - 1]); }
  }

  /** Terms of the shape provisioners write: each lists the allowed values of one label. */
  predicate Plain(terms: seq<Term>, key: string) {
    forall i | 0 <= i < |terms| ::
      && |terms[i].expressions| == 1
      && terms[i].expressions[0].key == key
      && terms[i].expressions[0].op == OpIn
      && terms[i].expressions[0].values != []
      && forall v | v in terms[i].expressions[0].values :: v != ""
  }

  predicate Distinct(values: seq<string>) {
    forall i, j | 0 <= i < j < |values| :: values[i] != values[j]
  }

  function NodeIn(key: string, d: string): (r: Node) { Node(d, map[key := d]) }

  /** Completeness on that shape: an unpinned volume really is reachable from two domains. */
  lemma PlainComplete(pv: Volume, key: string) returns (a: Node, b: Node)
    requires pv.terms.Some? && pv.terms.value != [] && Plain(pv.terms.value, key)
    requires forall i | 0 <= i < |pv.terms.value| :: Distinct(pv.terms.value[i].expressions[0].values)
    requires PinnedDomain(pv, key).None?
    ensures Reachable(pv.terms.value, a) && Reachable(pv.terms.value, b)
    ensures Domain.Of(a, key).Some? && Domain.Of(b, key).Some? && Domain.Of(a, key) != Domain.Of(b, key)
  {
    var terms := pv.terms.value;
    var first := terms[0].expressions[0].values;
    if |first| > 1 {
      a := PlainNode(terms, key, 0, 0);
      b := PlainNode(terms, key, 0, 1);
      assert first[0] != first[1];
    } else {
      var d := first[0];
      assert d in first && TermDomain(terms[0].expressions, key) == d;
      assert !PinsTo(terms, key, d);
      var i :| 0 <= i < |terms| && TermDomain(terms[i].expressions, key) != d;
      var values := terms[i].expressions[0].values;
      assert Fixes(terms[i].expressions[0], key) <==> |values| == 1;
      var k := if values[0] != d then 0 else 1;
      assert Distinct(values);
      a := PlainNode(terms, key, 0, 0);
      b := PlainNode(terms, key, i, k);
    }
  }

  lemma PlainNode(terms: seq<Term>, key: string, i: nat, k: nat) returns (n: Node)
    requires i < |terms| && Plain(terms, key) && k < |terms[i].expressions[0].values|
    ensures Reachable(terms, n) && Domain.Of(n, key) == Some(terms[i].expressions[0].values[k])
  {
    var v := terms[i].expressions[0].values[k];
    n := NodeIn(key, v);
    assert v in terms[i].expressions[0].values;
    assert MatchesExpression(terms[i].expressions[0], n.labels);
    assert MatchesTerm(terms[i], n.labels);
  }

  // ---------------------------------------------------------------- pins of a pod

  function VolumeName(): (f: Volume -> string) { (v: Volume) => v.name }
  function ClaimKey(): (f: Claim -> string) { (c: Claim) => c.Key() }

  /** The pin one claim name contributes, if any. */
  function PinOf(s: Snapshot, namespace: string, claim: string, domainKey: string): (r: Option<Pin>) {
    var claims := IndexBy(s.claims, ClaimKey());
    var volumes := IndexBy(s.volumes, VolumeName());
    var k := namespace + "/" + claim;
    if k !in claims || claims[k].volume == "" || claims[k].volume !in volumes then None
    else
      var pv := volumes[claims[k].volume];
      match PinnedDomain(pv, domainKey)
      case Some(d) => Some(Pin(claims[k].name, pv.name, d))
      case None => None
  }

  function PinsOf(s: Snapshot, namespace: string, claims: seq<string>, domainKey: string): (r: seq<Pin>) {
    if claims == [] then []
    else
      var rest := PinsOf(s, namespace, claims[..|claims| - 1], domainKey);
      match PinOf(s, namespace, claims[|claims| - 1], domainKey)
      case Some(p) => rest + [p]
      case None => rest
  }

  lemma PinsStep(s: Snapshot, namespace: string, claims: seq<string>, domainKey: string, i: nat)
    requires i < |claims|
    ensures PinsOf(s, namespace, claims[..i + 1], domainKey) == PinsOf(s, namespace, claims[..i], domainKey) +
      (match PinOf(s, namespace, claims[i], domainKey) case Some(p) => [p] case None => [])
  {
    assert claims[..i + 1][..i] == claims[..i];
  }

  method ForPod(s: Snapshot, pod: Pod, domainKey: string) returns (pins: seq<Pin>)
    ensures pins == PinsOf(s, pod.namespace, pod.spec.claims, domainKey)
  {
    var volumes := BuildIndex(s.volumes, VolumeName());
    var claims := BuildIndex(s.claims, ClaimKey());
    pins := [];
    for i := 0 to |pod.spec.claims|
      invariant pins == PinsOf(s, pod.namespace, pod.spec.claims[..i], domainKey)
    {
      PinsStep(s, pod.namespace, pod.spec.claims, domainKey, i);
      var pin := ClaimPin(s, claims, volumes, pod.namespace, pod.spec.claims[i], domainKey);
      if pin.Some? { pins := pins + [pin.value]; }
    }
    assert pod.spec.claims[..|pod.spec.claims|] == pod.spec.claims;
  }

  method ClaimPin(ghost s: Snapshot, claims: map<string, Claim>, volumes: map<string, Volume>,
                  namespace: string, claim: string, domainKey: string) returns (pin: Option<Pin>)
    requires claims == IndexBy(s.claims, ClaimKey()) && volumes == IndexBy(s.volumes, VolumeName())
    ensures pin == PinOf(s, namespace, claim, domainKey)
  {
    var k := namespace + "/" + claim;
    if k !in claims || claims[k].volume == "" || claims[k].volume !in volumes { return None; }
    var pv := volumes[claims[k].volume];
    var d := SingleDomainOf(pv, domainKey);
    assert d == PinnedDomain(pv, domainKey);
    if d.None? { return None; }
    return Some(Pin(claims[k].name, pv.name, d.value));
  }

  /** One of the claims leads to a volume pinned to `d`. */
  predicate ClaimsPin(s: Snapshot, namespace: string, claims: seq<string>, domainKey: string, d: string) {
    exists i | 0 <= i < |PinsOf(s, namespace, claims, domainKey)| ::
      PinsOf(s, namespace, claims, domainKey)[i].domain == d
  }

  /** A replica that cannot leave `d`: one of its volumes is pinned there. */
  predicate PinnedTo(s: Snapshot, pod: Pod, domainKey: string, d: string) {
    ClaimsPin(s, pod.namespace, pod.spec.claims, domainKey, d)
  }

  // ---------------------------------------------------------------- pins, read off the cluster

  /** As the API server has them: one claim of a name in a namespace, one volume of a name, and no
      slash in a namespace. */
  ghost predicate Proper(s: Snapshot) {
    && (forall i, j :: 0 <= i < j < |s.claims| ==>
          s.claims[i].namespace != s.claims[j].namespace || s.claims[i].name != s.claims[j].name)
    && (forall i, j :: 0 <= i < j < |s.volumes| ==> s.volumes[i].name != s.volumes[j].name)
    && forall i :: 0 <= i < |s.claims| ==> '/' !in s.claims[i].namespace
  }

  /** A claim of that namespace, among those named, that is bound to the volume. */
  ghost predicate Mounts(s: Snapshot, namespace: string, names: seq<string>, c: Claim, v: Volume) {
    && c in s.claims && v in s.volumes
    && c.namespace == namespace && c.name in names
    && c.volume == v.name && v.name != ""
  }

  /** Every term of the volume keeps its mounts in `d`. */
  ghost predicate TiedTo(v: Volume, key: string, d: string) { v.terms.Some? && PinsTo(v.terms.value, key, d) }

  lemma ClaimFound(s: Snapshot, namespace: string, name: string, c: Claim)
    requires Proper(s) && '/' !in namespace
    ensures var claims := IndexBy(s.claims, ClaimKey());
      namespace + "/" + name in claims && claims[namespace + "/" + name] == c <==>
      c in s.claims && c.namespace == namespace && c.name == name
  {
    var claims := IndexBy(s.claims, ClaimKey());
    forall i, j | 0 <= i < j < |s.claims| ensures ClaimKey()(s.claims[i]) != ClaimKey()(s.claims[j]) {
      if s.claims[i].Key() == s.claims[j].Key() {
        SlashSplits(s.claims[i].namespace, s.claims[i].name, s.claims[j].namespace, s.claims[j].name);
      }
    }
    EachFound(s.claims, ClaimKey());
    var k := namespace + "/" + name;
    if k in claims && claims[k] == c { SlashSplits(c.namespace, c.name, namespace, name); }
  }

  lemma VolumeFound(s: Snapshot, name: string, v: Volume)
    requires Proper(s)
    ensures var volumes := IndexBy(s.volumes, VolumeName());
      name in volumes && volumes[name] == v <==> v in s.volumes && v.name == name
  {
    EachFound(s.volumes, VolumeName());
  }

  /** When one claim name contributes a pin, and which. */
  lemma PinOfMeans(s: Snapshot, namespace: string, name: string, key: string, p: Pin)
    requires Proper(s) && '/' !in namespace
    ensures PinOf(s, namespace, name, key) == Some(p) <==>
      exists c, v ::
        Mounts(s, namespace, [name], c, v) && TiedTo(v, key, p.domain) && p == Pin(c.name, v.name, p.domain)
  {
    if PinOf(s, namespace, name, key) == Some(p) { var c, v := PinOfFound(s, namespace, name, key, p); }
    if c, v :| Mounts(s, namespace, [name], c, v) && TiedTo(v, key, p.domain) && p == Pin(c.name, v.name, p.domain) {
      PinOfMounted(s, namespace, name, key, c, v, p.domain);
    }
  }

  lemma PinOfMounted(s: Snapshot, namespace: string, name: string, key: string, c: Claim, v: Volume, d: string)
    requires Proper(s) && '/' !in namespace && Mounts(s, namespace, [name], c, v) && TiedTo(v, key, d)
    ensures PinOf(s, namespace, name, key) == Some(Pin(c.name, v.name, d))
  {
    ClaimFound(s, namespace, name, c);
    VolumeFound(s, c.volume, v);
    OneDomain(v, key, d);
  }

  lemma PinOfFound(s: Snapshot, namespace: string, name: string, key: string, p: Pin) returns (c: Claim, v: Volume)
    requires Proper(s) && '/' !in namespace && PinOf(s, namespace, name, key) == Some(p)
    ensures Mounts(s, namespace, [name], c, v) && TiedTo(v, key, p.domain) && p == Pin(c.name, v.name, p.domain)
  {
    c := IndexBy(s.claims, ClaimKey())[namespace + "/" + name];
    v := IndexBy(s.volumes, VolumeName())[c.volume];
    ClaimFound(s, namespace, name, c);
    VolumeFound(s, c.volume, v);
  }

  lemma OneDomain(v: Volume, key: string, d: string)
    requires TiedTo(v, key, d)
    ensures PinnedDomain(v, key) == Some(d)
  {}

  /** The pins of a pod are exactly those of its claims' volumes that are tied to a domain. */
  lemma {:induction false} PinsMean(s: Snapshot, namespace: string, names: seq<string>, key: string, p: Pin)
    requires Proper(s) && '/' !in namespace
    ensures p in PinsOf(s, namespace, names, key) <==>
      exists c, v :: Mounts(s, namespace, names, c, v) && TiedTo(v, key, p.domain) && p == Pin(c.name, v.name, p.domain)
  {
    if names != [] {
      var init, last := names[..|names| - 1], names[|names| - 1];
      assert names == init + [last];
      PinsMean(s, namespace, init, key, p);
      PinOfMeans(s, namespace, last, key, p);
      if c, v :| Mounts(s, namespace, [last], c, v) && TiedTo(v, key, p.domain) && p == Pin(c.name, v.name, p.domain) {
        assert Mounts(s, namespace, names, c, v);
      }
      if c, v :| Mounts(s, namespace, init, c, v) && TiedTo(v, key, p.domain) && p == Pin(c.name, v.name, p.domain) {
        assert Mounts(s, namespace, names, c, v);
      }
      if c, v :| Mounts(s, namespace, names, c, v) && TiedTo(v, key, p.domain) && p == Pin(c.name, v.name, p.domain) {
        assert Mounts(s, namespace, init, c, v) || Mounts(s, namespace, [last], c, v);
      }
    }
  }

  /** A pod is pinned to `d` exactly when it mounts a volume that is tied to `d`. */
  lemma PinnedIff(s: Snapshot, pod: Pod, key: string, d: string)
    requires Proper(s) && '/' !in pod.namespace
    ensures PinnedTo(s, pod, key, d) <==>
      exists c, v :: Mounts(s, pod.namespace, pod.spec.claims, c, v) && TiedTo(v, key, d)
  {
    var pins := PinsOf(s, pod.namespace, pod.spec.claims, key);
    if PinnedTo(s, pod, key, d) {
      var i :| 0 <= i < |pins| && pins[i].domain == d;
      PinsMean(s, pod.namespace, pod.spec.claims, key, pins[i]);
    }
    if c, v :| Mounts(s, pod.namespace, pod.spec.claims, c, v) && TiedTo(v, key, d) {
      PinsMean(s, pod.namespace, pod.spec.claims, key, Pin(c.name, v.name, d));
      var i :| 0 <= i < |pins| && pins[i] == Pin(c.name, v.name, d);
    }
  }

  /** Pins depend on the cluster's claims and volumes alone. */
  lemma {:induction false} SamePins(s: Snapshot, t: Snapshot, namespace: string, claims: seq<string>, domainKey: string)
    requires s.claims == t.claims && s.volumes == t.volumes
    ensures PinsOf(s, namespace, claims, domainKey) == PinsOf(t, namespace, claims, domainKey)
  {
    if claims != [] { SamePins(s, t, namespace, claims[..|claims| - 1], domainKey); }
  }

  /** A pinned pod really cannot start elsewhere: some volume it mounts is reachable, among nodes
      whose zone labels agree if that is the key, only from nodes of that domain. */
  lemma PinnedPodStays(s: Snapshot, pod: Pod, domainKey: string, d: string) returns (pv: Volume)
    requires PinnedTo(s, pod, domainKey, d)
    ensures pv in s.volumes && pv.terms.Some?
    ensures forall n :: Reachable(pv.terms.value, n) && Unambiguous(n, domainKey) ==> Domain.Of(n, domainKey) == Some(d)
  {
    var i :| 0 <= i < |PinsOf(s, pod.namespace, pod.spec.claims, domainKey)|
          && PinsOf(s, pod.namespace, pod.spec.claims, domainKey)[i].domain == d;
    pv := PinSource(s, pod.namespace, pod.spec.claims, domainKey, i);
    forall n | Reachable(pv.terms.value, n) && Unambiguous(n, domainKey) ensures Domain.Of(n, domainKey) == Some(d) {
      PinSound(pv, domainKey, n);
    }
  }

  lemma {:induction false} PinSource(s: Snapshot, namespace: string, claims: seq<string>, domainKey: string, i: nat)
    returns (pv: Volume)
    requires i < |PinsOf(s, namespace, claims, domainKey)|
    ensures pv in s.volumes
    ensures PinnedDomain(pv, domainKey) == Some(PinsOf(s, namespace, claims, domainKey)[i].domain)
  {
    var init := claims[..|claims| - 1];
    if i < |PinsOf(s, namespace, init, domainKey)| {
      pv := PinSource(s, namespace, init, domainKey, i);
    } else {
      var k := namespace + "/" + claims[|claims| - 1];
      pv := IndexBy(s.volumes, VolumeName())[IndexBy(s.claims, ClaimKey())[k].volume];
    }
  }
}
