/** The cluster objects the analysis reads, reduced to the fields it looks at, and the
    predicates on them that every package shares. Object names come from the API server:
    a namespace never contains '/'. */
module Cluster {
  import opened Basics

  type Labels = map<string, string>

  // ---------------------------------------------------------------- selectors

  datatype Requirement =
    | In(key: string, values: seq<string>)
    | NotIn(key: string, values: seq<string>)
    | Exists(key: string)
    | DoesNotExist(key: string)
  {
    predicate Holds(labels: Labels) {
      match this
      case In(k, vs) => k in labels && labels[k] in vs
      case NotIn(k, vs) => k !in labels || labels[k] !in vs
      case Exists(k) => k in labels
      case DoesNotExist(k) => k !in labels
    }
  }

  /** A label selector field: absent, one that does not parse, or a parsed one.
      An absent selector matches nothing; an empty one matches everything. */
  datatype Selector =
    | Absent
    | Unparseable
    | Parsed(matchLabels: Labels, requirements: seq<Requirement>)
  {
    predicate Matches(labels: Labels) {
      && Parsed?
      && (forall k | k in matchLabels :: k in labels && labels[k] == matchLabels[k])
      && (forall i | 0 <= i < |requirements| :: requirements[i].Holds(labels))
    }
  }

  /** Requirements in terms of the labels' entries: In is a choice of values, Exists of any value,
      and the other two are their negations, so both hold where the key is missing. */
  lemma RequirementLaws(labels: Labels, k: string, vs: seq<string>)
    ensures In(k, vs).Holds(labels) <==> exists v :: v in vs && (k, v) in labels.Items
    ensures Exists(k).Holds(labels) <==> exists v :: (k, v) in labels.Items
    ensures NotIn(k, vs).Holds(labels) <==> !In(k, vs).Holds(labels)
    ensures DoesNotExist(k).Holds(labels) <==> !Exists(k).Holds(labels)
  {
    if k in labels { assert (k, labels[k]) in labels.Items; }
  }

  /** A selector is the conjunction of its entries, each a requirement of one value, and of its
      requirements. */
  lemma SelectorLaws(labels: Labels, s: Selector)
    ensures s.Matches(labels) <==>
      && s.Parsed?
      && s.matchLabels.Items <= labels.Items
      && forall r :: r in s.requirements ==> r.Holds(labels)
  {
    if s.Matches(labels) {
      forall kv | kv in s.matchLabels.Items ensures kv in labels.Items { assert kv.0 in s.matchLabels; }
    }
    if s.Parsed? && s.matchLabels.Items <= labels.Items {
      forall k | k in s.matchLabels ensures k in labels && labels[k] == s.matchLabels[k] {
        assert (k, s.matchLabels[k]) in s.matchLabels.Items;
      }
    }
  }

  // ---------------------------------------------------------------- workloads

  /** The thing an operator names (workload.Ref). */
  datatype Ref = Ref(kind: string, namespace: string, name: string) {
    function Key(): (r: string) { namespace + "/" + name }
  }

  datatype OwnerRef = OwnerRef(kind: string, name: string, uid: string, controller: bool)

  datatype WhenUnsatisfiable = DoNotSchedule | ScheduleAnyway

  datatype SpreadConstraint = SpreadConstraint(
    maxSkew: int,
    topologyKey: string,
    when: WhenUnsatisfiable,
    minDomains: Option<int>,
    selector: Selector)

  /** A pod anti-affinity term. No namespaces means the pod's own; `rest` has what else a term can
      carry, such as a namespace selector, and is empty when there is none. */
  datatype AffinityTerm = AffinityTerm(topologyKey: string, selector: Selector, namespaces: seq<string>, rest: string)

  datatype AntiAffinity = AntiAffinity(required: seq<AffinityTerm>, preferred: seq<AffinityTerm>)

  /** The literal `value` of each environment variable; empty for a valueFrom reference. */
  datatype Container = Container(env: seq<string>)

  datatype PodSpec = PodSpec(
    nodeName: string,
    claims: seq<string>,
    initContainers: seq<Container>,
    containers: seq<Container>,
    spread: seq<SpreadConstraint>,
    antiAffinity: Option<AntiAffinity>)

  datatype Phase = Pending | Running | Succeeded | Failed | PhaseUnknown

  /** `ready` is the status of the first Ready condition, false when there is none. */
  datatype Pod = Pod(
    namespace: string,
    name: string,
    uid: string,
    labels: Labels,
    owners: seq<OwnerRef>,
    spec: PodSpec,
    phase: Phase,
    ready: bool,
    deleting: bool)
  {
    function Key(): (r: string) { namespace + "/" + name }

    /** health.Available */
    predicate Available() { !deleting && phase == Running && ready }

    /** health.IgnoredByPDB */
    predicate IgnoredByPDB() { deleting || phase == Pending || phase == Succeeded || phase == Failed }

    /** The members sched.assignedPods keeps: they occupy a node. */
    predicate Assigned() { spec.nodeName != "" && phase != Succeeded && phase != Failed }
  }

  /** The phases by which the analysis sorts pods. A serving pod is Running; a finished one neither
      occupies a node nor counts for a budget; one that waits counts for no budget either; one of
      unknown phase occupies its node and counts, but serves nobody. */
  lemma PodLifecycle(p: Pod)
    ensures p.Available() <==> p.phase == Running && p.ready && !p.deleting
    ensures p.phase == Running || p.phase == PhaseUnknown ==>
      (p.Assigned() <==> p.spec.nodeName != "") && (p.IgnoredByPDB() <==> p.deleting)
    ensures p.phase == Pending ==> (p.Assigned() <==> p.spec.nodeName != "") && p.IgnoredByPDB()
    ensures p.phase == Succeeded || p.phase == Failed ==> !p.Assigned() && p.IgnoredByPDB()
  {}

  datatype Template = Template(labels: Labels, spec: PodSpec)

  datatype ReplicaSet = ReplicaSet(namespace: string, name: string, uid: string, owners: seq<OwnerRef>)

  /** A Deployment or a StatefulSet: the analysis reads the same fields of both. */
  datatype Controller = Controller(
    namespace: string,
    name: string,
    replicas: Option<int>,
    selector: Selector,
    template: Template)

  // ---------------------------------------------------------------- nodes and volumes

  datatype Node = Node(name: string, labels: Labels)

  ghost predicate UniqueNames(nodes: seq<Node>) {
    forall i, j :: 0 <= i < j < |nodes| ==> nodes[i].name != nodes[j].name
  }

  datatype Operator = OpIn | OpNotIn | OpExists | OpDoesNotExist | OpGt | OpLt

  datatype Expression = Expression(key: string, op: Operator, values: seq<string>)

  datatype Term = Term(expressions: seq<Expression>)

  /** `terms` is the required node affinity, when there is one. */
  datatype Volume = Volume(name: string, terms: Option<seq<Term>>)

  datatype Claim = Claim(namespace: string, name: string, volume: string) {
    function Key(): (r: string) { namespace + "/" + name }
  }

  // ---------------------------------------------------------------- budgets

  /** intstr.IntOrString: a number, a percentage, or a string that is neither. */
  datatype Amount = Count(n: int) | Percent(p: int) | Malformed

  datatype Budget = Budget(
    namespace: string,
    name: string,
    selector: Selector,
    minAvailable: Option<Amount>,
    maxUnavailable: Option<Amount>,
    generation: int,
    observedGeneration: int)
  {
    function Key(): (r: string) { namespace + "/" + name }
  }

  // ---------------------------------------------------------------- services

  datatype ServiceKey = ServiceKey(namespace: string, name: string) {
    function Key(): (r: string) { namespace + "/" + name }
  }

  datatype Service = Service(key: ServiceKey, externalName: bool, selector: Labels)

  /** One endpoint's target reference. */
  datatype Target = NoTarget | Target(kind: string, namespace: string, name: string)

  /** `service` is the owning-service label, empty when the slice carries none. */
  datatype EndpointSlice = EndpointSlice(namespace: string, service: string, targets: seq<Target>)

  // ---------------------------------------------------------------- the snapshot

  /** Everything downstream is a function of this value (snapshot.Snapshot). */
  datatype Snapshot = Snapshot(
    nodes: seq<Node>,
    pods: seq<Pod>,
    budgets: seq<Budget>,
    claims: seq<Claim>,
    volumes: seq<Volume>,
    replicaSets: seq<ReplicaSet>,
    deployments: seq<Controller>,
    statefulSets: seq<Controller>,
    services: seq<Service>,
    slices: seq<EndpointSlice>)

  function BeforeSlash(s: string): (r: string) {
    if s == "" || s[0] == '/' then "" else [s[0]] + BeforeSlash(s[1..])
  }

  lemma {:induction false} SlashFound(a: string, b: string)
    requires '/' !in a
    ensures BeforeSlash(a + "/" + b) == a
  {
    if a != "" {
      assert (a + "/" + b)[1..] == a[1..] + "/" + b;
      SlashFound(a[1..], b);
    }
  }

  /** A key reads back: the namespace up to the first slash, the name after it. */
  ghost predicate Qualifies(key: string, namespace: string, name: string) {
    '/' !in namespace ==> BeforeSlash(key) == namespace && key == BeforeSlash(key) + "/" + name
  }

  lemma KeysQualify(r: Ref, p: Pod, c: Claim, b: Budget, k: ServiceKey)
    ensures Qualifies(r.Key(), r.namespace, r.name) && Qualifies(p.Key(), p.namespace, p.name)
    ensures Qualifies(c.Key(), c.namespace, c.name) && Qualifies(b.Key(), b.namespace, b.name)
    ensures Qualifies(k.Key(), k.namespace, k.name)
  {
    if '/' !in r.namespace { SlashFound(r.namespace, r.name); }
    if '/' !in p.namespace { SlashFound(p.namespace, p.name); }
    if '/' !in c.namespace { SlashFound(c.namespace, c.name); }
    if '/' !in b.namespace { SlashFound(b.namespace, b.name); }
    if '/' !in k.namespace { SlashFound(k.namespace, k.name); }
  }

  /** "a/b" splits one way only when what precedes the slash has none. */
  lemma {:induction false} SlashSplits(a: string, b: string, c: string, d: string)
    requires a + "/" + b == c + "/" + d
    requires '/' !in a && '/' !in c
    ensures a == c && b == d
  {
    var s := a + "/" + b;
    assert s[|a|] == '/' && s[|c|] == '/';
    assert forall i :: 0 <= i < |a| ==> s[i] == a[i];
    assert forall i :: 0 <= i < |c| ==> s[i] == c[i];
    assert a == s[..|a|] && c == s[..|c|];
    assert b == s[|a| + 1..] && d == s[|c| + 1..];
  }
}
