/** internal/spread: how much protection a topology spread configuration really gives. */
module Spread {
  import opened Basics
  import opened Cluster

  datatype State = Enforced | EnforcedButWeak | Advisory | NoConstraint

  // ---------------------------------------------------------------- classification

  predicate Binds(c: SpreadConstraint, domainKey: string) {
    c.topologyKey == domainKey && c.when == DoNotSchedule
  }

  predicate Advises(c: SpreadConstraint, domainKey: string) {
    c.topologyKey == domainKey && c.when == ScheduleAnyway
  }

  /** The first of the binding constraints with the least maxSkew. */
  function Tightest(cs: seq<SpreadConstraint>, domainKey: string): (r: Option<SpreadConstraint>) {
    if cs == [] then None
    else
      var rest := Tightest(cs[..|cs| - 1], domainKey);
      var last := cs[|cs| - 1];
      if Binds(last, domainKey) && (rest.None? || last.maxSkew < rest.value.maxSkew) then Some(last) else rest
  }

  /** The verdict on the constraint that binds. */
  function Judge(c: SpreadConstraint, replicas: int, domainCount: int): (r: State) {
    if domainCount <= 1 then EnforcedButWeak
    else if c.minDomains.Some? && c.minDomains.value > 1 && domainCount >= c.minDomains.value then Enforced
    else if c.maxSkew >= replicas then EnforcedButWeak
    else Enforced
  }

  function StateOf(cs: seq<SpreadConstraint>, domainKey: string, replicas: int, domainCount: int): (r: State) {
    match Tightest(cs, domainKey)
    case Some(c) => Judge(c, replicas, domainCount)
    case None => if exists i | 0 <= i < |cs| :: Advises(cs[i], domainKey) then Advisory else NoConstraint
  }

  method Classify(constraints: seq<SpreadConstraint>, domainKey: string, replicas: int, domainCount: int)
    returns (state: State)
    ensures state == StateOf(constraints, domainKey, replicas, domainCount)
  {
    var enforced: Option<SpreadConstraint>, advisory: Option<SpreadConstraint> := None, None;
    for i := 0 to |constraints|
      invariant enforced == Tightest(constraints[..i], domainKey)
      invariant advisory.Some? <==> exists j :: 0 <= j < i && Advises(constraints[j], domainKey)
    {
      assert constraints[..i + 1][..i] == constraints[..i];
      var c := constraints[i];
      if c.topologyKey != domainKey { continue; }
      if c.when == DoNotSchedule {
        if enforced.None? || c.maxSkew < enforced.value.maxSkew { enforced := Some(c); }
        continue;
      }
      if advisory.None? { advisory := Some(c); }
    }
    assert constraints[..|constraints|] == constraints;
    if enforced.Some? {
      if domainCount <= 1 { return EnforcedButWeak; }
      var min := enforced.value.minDomains;
      if min.Some? && min.value > 1 && domainCount >= min.value { return Enforced; }
      if enforced.value.maxSkew >= replicas { return EnforcedButWeak; }
      return Enforced;
    }
    if advisory.Some? { return Advisory; }
    return NoConstraint;
  }

  lemma {:induction false} TightestBinds(cs: seq<SpreadConstraint>, domainKey: string)
    ensures Tightest(cs, domainKey).None? <==> forall i :: 0 <= i < |cs| ==> !Binds(cs[i], domainKey)
    ensures Tightest(cs, domainKey).Some? ==>
      && IsTightest(cs, domainKey, Tightest(cs, domainKey).value)
  {
    if cs != [] {
      var init, last := cs[..|cs| - 1], cs[|cs| - 1];
      assert cs == init + [last];
      TightestBinds(init, domainKey);
    }
  }

  ghost predicate IsTightest(cs: seq<SpreadConstraint>, domainKey: string, c: SpreadConstraint) {
    && c in cs && Binds(c, domainKey)
    && forall i :: 0 <= i < |cs| && Binds(cs[i], domainKey) ==> c.maxSkew <= cs[i].maxSkew
  }

  // ---------------------------------------------------------------- live skew

  function At(placement: map<string, nat>, d: string): (r: nat) {
    if d in placement then placement[d] else 0
  }

  /** `skew` is the widest gap between two domains, and some pair of domains shows it. */
  ghost predicate IsSkew(placement: map<string, nat>, domains: seq<string>, skew: int) {
    && (forall d, e :: d in domains && e in domains ==> At(placement, d) - At(placement, e) <= skew)
    && (if domains == [] then skew == 0
        else exists d, e :: d in domains && e in domains && At(placement, d) - At(placement, e) == skew)
  }

  lemma SkewUnique(placement: map<string, nat>, domains: seq<string>, a: int, b: int)
    requires IsSkew(placement, domains, a) && IsSkew(placement, domains, b)
    ensures a == b
  {}

  method LiveSkew(placement: map<string, nat>, domains: seq<string>) returns (skew: int)
    ensures IsSkew(placement, domains, skew)
  {
    if |domains| == 0 { return 0; }
    var max, min := 0, -1;
    ghost var hi, lo := domains[0], domains[0];
    for i := 0 to |domains|
      invariant min == -1 <==> i == 0
      invariant i == 0 ==> max == 0
      invariant forall d :: d in domains[..i] ==> min <= At(placement, d) <= max
      invariant hi in domains && lo in domains
      invariant i > 0 ==> At(placement, lo) == min && At(placement, hi) == max
    {
      assert domains[..i + 1] == domains[..i] + [domains[i]];
      var n := At(placement, domains[i]);
      if n > max || i == 0 { hi := domains[i]; }
      if n > max { max := n; }
      if min == -1 || n < min { min, lo := n, domains[i]; }
    }
    assert domains[..|domains|] == domains;
    skew := max - min;
    assert At(placement, hi) - At(placement, lo) == skew;
  }

  // ---------------------------------------------------------------- exactness

  function Total(placement: map<string, nat>, domains: seq<string>): (r: nat) {
    if domains == [] then 0
    else Total(placement, domains[..|domains| - 1]) + At(placement, domains[|domains| - 1])
  }

  /** No domain is ahead of another by more than `k`. */
  ghost predicate Within(placement: map<string, nat>, domains: seq<string>, k: int) {
    forall d, e :: d in domains && e in domains ==> At(placement, d) - At(placement, e) <= k
  }

  predicate BelowMinimum(c: SpreadConstraint, domainCount: int) {
    c.minDomains.Some? && domainCount < c.minDomains.value
  }

  /** One constraint as the scheduler reads it: with fewer domains than the minimum it counts the
      emptiest as zero, otherwise the minimum plays no part. */
  ghost predicate Admits(placement: map<string, nat>, domains: seq<string>, c: SpreadConstraint) {
    if BelowMinimum(c, |domains|) then forall d :: d in domains ==> At(placement, d) <= c.maxSkew
    else Within(placement, domains, c.maxSkew)
  }

  /** The scheduler ANDs the binding constraints. */
  ghost predicate Honours(placement: map<string, nat>, domains: seq<string>, cs: seq<SpreadConstraint>,
                          domainKey: string)
  {
    forall i :: 0 <= i < |cs| && Binds(cs[i], domainKey) ==> Admits(placement, domains, cs[i])
  }

  /** Losing any one domain leaves a replica in another. */
  ghost predicate Spreads(placement: map<string, nat>, domains: seq<string>) {
    forall d {:trigger Elsewhere(placement, domains, d)} :: d in domains ==> Elsewhere(placement, domains, d)
  }

  ghost predicate Elsewhere(placement: map<string, nat>, domains: seq<string>, d: string) {
    exists e :: e in domains && e != d && At(placement, e) > 0
  }

  ghost predicate Distinct(domains: seq<string>) {
    forall i, j :: 0 <= i < j < |domains| ==> domains[i] != domains[j]
  }

  lemma {:induction false} TotalZero(placement: map<string, nat>, domains: seq<string>)
    requires forall d :: d in domains ==> At(placement, d) == 0
    ensures Total(placement, domains) == 0
  {
    if domains != [] { TotalZero(placement, domains[..|domains| - 1]); }
  }

  /** When all the replicas sit in one domain, its count is the total. */
  lemma {:induction false} TotalSingle(placement: map<string, nat>, domains: seq<string>, d: string)
    requires Distinct(domains) && d in domains
    requires forall e :: e in domains && e != d ==> At(placement, e) == 0
    ensures Total(placement, domains) == At(placement, d)
  {
    var init, last := domains[..|domains| - 1], domains[|domains| - 1];
    assert domains == init + [last];
    if last == d { TotalZero(placement, init); } else { TotalSingle(placement, init, d); }
  }

  ghost predicate NoMinDomains(cs: seq<SpreadConstraint>, domainKey: string) {
    forall i :: 0 <= i < |cs| && Binds(cs[i], domainKey) ==> cs[i].minDomains.None?
  }

  /** A skew bound below the replica count forces a spread over two or more domains. */
  lemma TightSkewSpreads(placement: map<string, nat>, domains: seq<string>, k: int)
    requires Distinct(domains) && |domains| >= 2
    requires Within(placement, domains, k) && k < Total(placement, domains)
    ensures Spreads(placement, domains)
  {
    forall d | d in domains ensures Elsewhere(placement, domains, d) {
      var other := if domains[0] == d then domains[1] else domains[0];
      assert At(placement, d) - At(placement, other) <= k;
      if forall e :: e in domains && e != d ==> At(placement, e) == 0 {
        TotalSingle(placement, domains, d);
      }
    }
  }

  lemma MulStep(n: int, c: int)
    ensures (n + 1) * c == n * c + c
    ensures n * (c + 1) == n * c + n
    ensures n * (c - 1) == n * c - n
  {}

  /** Bounds on the total from bounds on the counts. */
  lemma {:induction false} TotalBounds(placement: map<string, nat>, domains: seq<string>, lo: int, hi: int)
    requires forall e :: e in domains ==> lo <= At(placement, e) <= hi
    ensures |domains| * lo <= Total(placement, domains) <= |domains| * hi
  {
    if domains != [] {
      var init := domains[..|domains| - 1];
      TotalBounds(placement, init, lo, hi);
      MulStep(|init|, lo);
      MulStep(|init|, hi);
    }
  }

  /** When no two counts differ by more than one, each is within a rounding of the average. */
  lemma {:induction false} CountNearAverage(placement: map<string, nat>, domains: seq<string>, d: string)
    requires Distinct(domains) && d in domains && Within(placement, domains, 1)
    ensures |domains| * At(placement, d) - (|domains| - 1) <= Total(placement, domains)
    ensures Total(placement, domains) <= |domains| * At(placement, d) + (|domains| - 1)
  {
    var init, last := domains[..|domains| - 1], domains[|domains| - 1];
    var c: int := At(placement, d);
    assert domains == init + [last];
    MulStep(|init|, c);
    if last == d {
      TotalBounds(placement, init, c - 1, c + 1);
    } else {
      CountNearAverage(placement, init, d);
    }
  }

  /** Under maxSkew 1 every domain holds the average, rounded down or up. */
  lemma EvenSpread(placement: map<string, nat>, domains: seq<string>, d: string)
    requires Distinct(domains) && d in domains && Within(placement, domains, 1)
    ensures At(placement, d) == Total(placement, domains) / |domains|
         || At(placement, d) == (Total(placement, domains) + |domains| - 1) / |domains|
  {
    CountNearAverage(placement, domains, d);
    var total, n, c := Total(placement, domains), |domains|, At(placement, d);
    if total >= n * c { DivideExactly(total, n, c); } else { DivideExactly(total + n - 1, n, c); }
  }

  lemma DivideExactly(m: nat, n: nat, c: nat)
    requires n >= 1 && n * c <= m < n * c + n
    ensures m / n == c
  {
    var q := m / n;
    assert n * q <= m < n * q + n;
    MulMonotone(n, q + 1, c);
    MulMonotone(n, c + 1, q);
    MulStep(n, q);
    MulStep(n, c);
  }

  lemma MulMonotone(n: nat, a: nat, b: nat)
    ensures a <= b ==> n * a <= n * b
  {
    if a <= b { assert n * b == n * a + n * (b - a); }
  }

  /** A bound on every count below the total does so too. */
  lemma CappedSpreads(placement: map<string, nat>, domains: seq<string>, k: int)
    requires Distinct(domains) && forall d :: d in domains ==> At(placement, d) <= k
    requires k < Total(placement, domains)
    ensures Spreads(placement, domains)
  {
    forall d | d in domains ensures Elsewhere(placement, domains, d) {
      if forall e :: e in domains && e != d ==> At(placement, e) == 0 {
        TotalSingle(placement, domains, d);
      }
    }
  }

  /** Some binding constraint keeps fewer than all the replicas in one place. */
  predicate Forces(cs: seq<SpreadConstraint>, domainKey: string, replicas: int) {
    exists i | 0 <= i < |cs| :: Binds(cs[i], domainKey) && cs[i].maxSkew < replicas
  }

  lemma ForcesIff(cs: seq<SpreadConstraint>, domainKey: string, replicas: int)
    ensures Forces(cs, domainKey, replicas) <==>
      Tightest(cs, domainKey).Some? && Tightest(cs, domainKey).value.maxSkew < replicas
  {
    TightestBinds(cs, domainKey);
    if Tightest(cs, domainKey).Some? {
      var i :| 0 <= i < |cs| && cs[i] == Tightest(cs, domainKey).value;
    }
  }

  /** The placement that a list which forces nothing permits: every replica in the first domain. */
  lemma WeakWitness(cs: seq<SpreadConstraint>, domainKey: string, replicas: nat, domains: seq<string>)
    returns (placement: map<string, nat>)
    requires Distinct(domains) && |domains| >= 2 && !Forces(cs, domainKey, replicas)
    ensures Total(placement, domains) == replicas
    ensures Honours(placement, domains, cs, domainKey)
    ensures !Spreads(placement, domains)
  {
    placement := map[domains[0] := replicas];
    TotalSingle(placement, domains, domains[0]);
    assert domains[0] in domains && !Elsewhere(placement, domains, domains[0]);
  }

  /** The constraints force a spread exactly when one of them forces it. */
  lemma ForcedExactly(cs: seq<SpreadConstraint>, domainKey: string, replicas: nat, domains: seq<string>)
    requires Distinct(domains) && |domains| >= 2
    ensures Forces(cs, domainKey, replicas)
       <==> forall p: map<string, nat> ::
              Total(p, domains) == replicas && Honours(p, domains, cs, domainKey) ==> Spreads(p, domains)
  {
    if Forces(cs, domainKey, replicas) {
      forall p: map<string, nat> | Total(p, domains) == replicas && Honours(p, domains, cs, domainKey)
        ensures Spreads(p, domains)
      {
        var i :| 0 <= i < |cs| && Binds(cs[i], domainKey) && cs[i].maxSkew < replicas;
        if BelowMinimum(cs[i], |domains|) {
          CappedSpreads(p, domains, cs[i].maxSkew);
        } else {
          TightSkewSpreads(p, domains, cs[i].maxSkew);
        }
      }
    } else {
      var p := WeakWitness(cs, domainKey, replicas, domains);
    }
  }

  /** The verdict rests on minDomains alone: the tightest constraint would let every replica share
      a domain, but sets a minimum that the cluster meets. */
  predicate MinDomainsDecides(cs: seq<SpreadConstraint>, domainKey: string, replicas: int, domainCount: int) {
    Tightest(cs, domainKey).Some? &&
      var c := Tightest(cs, domainKey).value;
      c.minDomains.Some? && 1 < c.minDomains.value <= domainCount && c.maxSkew >= replicas
  }

  /** Exactly when "enforced" is right: it is reported iff every placement the binding constraints
      admit leaves a replica outside each domain, unless minDomains alone decides. A minimum that is
      met changes nothing for the scheduler, so then the report is wrong. */
  lemma ClassifyExact(cs: seq<SpreadConstraint>, domainKey: string, replicas: nat, domains: seq<string>)
    requires Distinct(domains) && |domains| >= 2
    ensures (StateOf(cs, domainKey, replicas, |domains|) == Enforced
             <==> forall p: map<string, nat> ::
                    Total(p, domains) == replicas && Honours(p, domains, cs, domainKey) ==> Spreads(p, domains))
       <==> !MinDomainsDecides(cs, domainKey, replicas, |domains|)
  {
    ForcedExactly(cs, domainKey, replicas, domains);
    ForcesIff(cs, domainKey, replicas);
  }

  /** Three replicas, three domains, maxSkew 3 and minDomains 2: reported as enforced, though all
      three replicas may share a domain. */
  lemma MetMinimumForcesNothing() returns (placement: map<string, nat>)
    ensures var cs := [SpreadConstraint(3, "zone", DoNotSchedule, Some(2), Absent)];
      var domains := ["a", "b", "c"];
      && StateOf(cs, "zone", 3, |domains|) == Enforced
      && Total(placement, domains) == 3 && Honours(placement, domains, cs, "zone") && !Spreads(placement, domains)
  {
    var c := SpreadConstraint(3, "zone", DoNotSchedule, Some(2), Absent);
    FirstTightestWins(c, [], "zone");
    assert [c] + [] == [c];
    placement := WeakWitness([c], "zone", 3, ["a", "b", "c"]);
  }

  /** The other verdicts: a weak one has a binding constraint, an advisory one only constraints that
      are preferences, and none means no constraint on the key at all. */
  lemma StatesMean(cs: seq<SpreadConstraint>, domainKey: string, replicas: int, domainCount: int)
    ensures var state := StateOf(cs, domainKey, replicas, domainCount);
      var binding := exists c :: c in cs && c.topologyKey == domainKey && c.when == DoNotSchedule;
      var preferring := exists c :: c in cs && c.topologyKey == domainKey && c.when == ScheduleAnyway;
      && (state == NoConstraint <==> !binding && !preferring)
      && (state == Advisory <==> !binding && preferring)
      && (state in {Enforced, EnforcedButWeak} <==> binding)
      && (binding && domainCount <= 1 ==> state == EnforcedButWeak)
  {
    TightestBinds(cs, domainKey);
    if c :| c in cs && c.topologyKey == domainKey && c.when == ScheduleAnyway {
      var i :| 0 <= i < |cs| && cs[i] == c;
      assert Advises(cs[i], domainKey);
    }
    if c :| c in cs && c.topologyKey == domainKey && c.when == DoNotSchedule {
      var i :| 0 <= i < |cs| && cs[i] == c;
      assert Binds(cs[i], domainKey);
    }
  }

  // ---------------------------------------------------------------- order of the list

  ghost predicate Permutes(a: seq<SpreadConstraint>, b: seq<SpreadConstraint>) {
    multiset(a) == multiset(b)
  }

  /** All the tightest constraints earn the same verdict. */
  ghost predicate TiesAgree(cs: seq<SpreadConstraint>, domainKey: string, replicas: int, domainCount: int) {
    forall a, b :: IsTightest(cs, domainKey, a) && IsTightest(cs, domainKey, b) ==>
      Judge(a, replicas, domainCount) == Judge(b, replicas, domainCount)
  }

  lemma PermutedMembers(a: seq<SpreadConstraint>, b: seq<SpreadConstraint>)
    requires Permutes(a, b)
    ensures forall c :: c in a <==> c in b
  {
    assert forall c :: c in a <==> c in multiset(a);
    assert forall c :: c in b <==> c in multiset(b);
  }

  lemma {:induction false} FirstTightestWins(c: SpreadConstraint, cs: seq<SpreadConstraint>, domainKey: string)
    requires Binds(c, domainKey)
    requires forall i :: 0 <= i < |cs| && Binds(cs[i], domainKey) ==> c.maxSkew <= cs[i].maxSkew
    ensures Tightest([c] + cs, domainKey) == Some(c)
  {
    var all := [c] + cs;
    if cs == [] {
      assert all[..0] == [];
    } else {
      assert all[..|all| - 1] == [c] + cs[..|cs| - 1];
      FirstTightestWins(c, cs[..|cs| - 1], domainKey);
    }
  }

  /** Any of the tightest constraints can be made the one that decides. */
  lemma Promote(cs: seq<SpreadConstraint>, domainKey: string, c: SpreadConstraint) returns (p: seq<SpreadConstraint>)
    requires IsTightest(cs, domainKey, c)
    ensures Permutes(p, cs) && Tightest(p, domainKey) == Some(c)
  {
    var i :| 0 <= i < |cs| && cs[i] == c;
    var rest := cs[..i] + cs[i + 1..];
    p := [c] + rest;
    assert cs == cs[..i] + [c] + cs[i + 1..];
    forall j | 0 <= j < |rest| && Binds(rest[j], domainKey) ensures c.maxSkew <= rest[j].maxSkew {
      assert rest[j] == cs[if j < i then j else j + 1];
    }
    FirstTightestWins(c, rest, domainKey);
  }

  /** The verdict survives reordering the list exactly when the tightest constraints agree;
      without minDomains they always do. */
  lemma OrderIndependence(cs: seq<SpreadConstraint>, domainKey: string, replicas: int, domainCount: int)
    ensures (forall p :: Permutes(p, cs) ==>
              StateOf(p, domainKey, replicas, domainCount) == StateOf(cs, domainKey, replicas, domainCount))
       <==> TiesAgree(cs, domainKey, replicas, domainCount)
    ensures NoMinDomains(cs, domainKey) ==> TiesAgree(cs, domainKey, replicas, domainCount)
  {
    if TiesAgree(cs, domainKey, replicas, domainCount) {
      forall p | Permutes(p, cs)
        ensures StateOf(p, domainKey, replicas, domainCount) == StateOf(cs, domainKey, replicas, domainCount)
      {
        ReorderSame(p, cs, domainKey, replicas, domainCount);
      }
    } else {
      var a, b :| IsTightest(cs, domainKey, a) && IsTightest(cs, domainKey, b)
                  && Judge(a, replicas, domainCount) != Judge(b, replicas, domainCount);
      var p := Promote(cs, domainKey, a);
      var q := Promote(cs, domainKey, b);
      assert StateOf(p, domainKey, replicas, domainCount) != StateOf(q, domainKey, replicas, domainCount);
    }
  }

  lemma ReorderSame(p: seq<SpreadConstraint>, cs: seq<SpreadConstraint>, domainKey: string, replicas: int,
                    domainCount: int)
    requires Permutes(p, cs) && TiesAgree(cs, domainKey, replicas, domainCount)
    ensures StateOf(p, domainKey, replicas, domainCount) == StateOf(cs, domainKey, replicas, domainCount)
  {
    PermutedMembers(p, cs);
    TightestBinds(p, domainKey);
    TightestBinds(cs, domainKey);
    forall i | 0 <= i < |cs| ensures cs[i] in p { assert cs[i] in cs; }
    forall i | 0 <= i < |p| ensures p[i] in cs { assert p[i] in p; }
    if Tightest(p, domainKey).Some? {
      var c := Tightest(p, domainKey).value;
      forall i | 0 <= i < |cs| && Binds(cs[i], domainKey) ensures c.maxSkew <= cs[i].maxSkew {
        var j :| 0 <= j < |p| && p[j] == cs[i];
      }
      assert IsTightest(cs, domainKey, c);
    }
  }

  /** Two equally tight constraints of which one sets minDomains: the order decides. */
  lemma MinDomainsTieDependsOnOrder()
    ensures var loose := SpreadConstraint(3, "zone", DoNotSchedule, None, Absent);
            var forced := SpreadConstraint(3, "zone", DoNotSchedule, Some(2), Absent);
            && StateOf([loose, forced], "zone", 3, 3) == EnforcedButWeak
            && StateOf([forced, loose], "zone", 3, 3) == Enforced
  {
    var loose := SpreadConstraint(3, "zone", DoNotSchedule, None, Absent);
    var forced := SpreadConstraint(3, "zone", DoNotSchedule, Some(2), Absent);
    FirstTightestWins(loose, [forced], "zone");
    FirstTightestWins(forced, [loose], "zone");
    assert [loose] + [forced] == [loose, forced] && [forced] + [loose] == [forced, loose];
  }

  // ---------------------------------------------------------------- anti-affinity

  predicate Mentions(terms: seq<AffinityTerm>, domainKey: string) {
    exists i | 0 <= i < |terms| :: terms[i].topologyKey == domainKey
  }

  function AntiAffinityState(affinity: Option<AntiAffinity>, domainKey: string): (r: State) {
    match affinity
    case None => NoConstraint
    case Some(aa) =>
      if Mentions(aa.required, domainKey) then Enforced
      else if Mentions(aa.preferred, domainKey) then Advisory
      else NoConstraint
  }

  lemma AntiAffinityMeans(affinity: Option<AntiAffinity>, domainKey: string)
    ensures var state := AntiAffinityState(affinity, domainKey);
      var required := affinity.Some? && exists t :: t in affinity.value.required && t.topologyKey == domainKey;
      var preferred := affinity.Some? && exists t :: t in affinity.value.preferred && t.topologyKey == domainKey;
      && (state == Enforced <==> required)
      && (state == Advisory <==> !required && preferred)
      && (state == NoConstraint <==> !required && !preferred)
  {
    if affinity.Some? {
      MentionsMeans(affinity.value.required, domainKey);
      MentionsMeans(affinity.value.preferred, domainKey);
    }
  }

  lemma MentionsMeans(terms: seq<AffinityTerm>, domainKey: string)
    ensures Mentions(terms, domainKey) <==> exists t :: t in terms && t.topologyKey == domainKey
  {
    if t :| t in terms && t.topologyKey == domainKey { var i :| 0 <= i < |terms| && terms[i] == t; }
  }
}
