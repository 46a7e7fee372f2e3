/** Vocabulary shared by every package model: optional values, results, filtering,
    "last one wins" lookup maps, string order, sorting and decimal rendering. */
module Basics {

  datatype Option<+T> = None | Some(value: T)

  /** (value, error) pairs; error texts are presentation and not modelled. */
  datatype Result<+T> = Ok(value: T) | Err

  // ---------------------------------------------------------------- filtering

  function Filter<T>(xs: seq<T>, f: T -> bool): (r: seq<T>)
  {
    if xs == [] then []
    else
      var rest := Filter(xs[..|xs| - 1], f);
      if f(xs[|xs| - 1]) then rest + [xs[|xs| - 1]] else rest
  }

  lemma {:induction false} FilterMembers<T>(xs: seq<T>, f: T -> bool)
    ensures forall x :: x in Filter(xs, f) <==> x in xs && f(x)
    ensures |Filter(xs, f)| <= |xs|
  {
    if xs != [] {
      FilterMembers(xs[..|xs| - 1], f);
      assert xs == xs[..|xs| - 1] + [xs[|xs| - 1]];
    }
  }

  /** A filter that implies another selects fewer elements, and equally many exactly
      when the two agree on the sequence. */
  lemma {:induction false} FilterImplies<T>(xs: seq<T>, f: T -> bool, g: T -> bool)
    requires forall x :: x in xs && f(x) ==> g(x)
    ensures |Filter(xs, f)| <= |Filter(xs, g)|
    ensures |Filter(xs, f)| == |Filter(xs, g)| <==> forall x :: x in xs && g(x) ==> f(x)
  {
    if xs != [] {
      var init, last := xs[..|xs| - 1], xs[|xs| - 1];
      assert xs == init + [last];
      FilterImplies(init, f, g);
    }
  }

  lemma {:induction false} FilterSplit<T>(xs: seq<T>, f: T -> bool, g: T -> bool)
    requires forall x :: x in xs ==> f(x) == !g(x)
    ensures |Filter(xs, f)| + |Filter(xs, g)| == |xs|
  {
    if xs != [] {
      var init, last := xs[..|xs| - 1], xs[|xs| - 1];
      assert xs == init + [last];
      FilterSplit(init, f, g);
    }
  }

  lemma {:induction false} FilterAgree<T>(xs: seq<T>, f: T -> bool, g: T -> bool)
    requires forall x :: x in xs ==> f(x) == g(x)
    ensures Filter(xs, f) == Filter(xs, g)
  {
    if xs != [] {
      var init, last := xs[..|xs| - 1], xs[|xs| - 1];
      assert xs == init + [last];
      FilterAgree(init, f, g);
    }
  }

  lemma {:induction false} FilterAll<T>(xs: seq<T>, f: T -> bool)
    requires forall x :: x in xs ==> f(x)
    ensures Filter(xs, f) == xs
  {
    if xs != [] {
      var init, last := xs[..|xs| - 1], xs[|xs| - 1];
      assert xs == init + [last];
      FilterAll(init, f);
    }
  }

  lemma FilterAppend<T>(xs: seq<T>, x: T, f: T -> bool)
    ensures Filter(xs + [x], f) == if f(x) then Filter(xs, f) + [x] else Filter(xs, f)
  {
    assert (xs + [x])[..|xs|] == xs;
  }

  lemma {:induction false} FilterConcat<T>(xs: seq<T>, ys: seq<T>, f: T -> bool)
    ensures Filter(xs + ys, f) == Filter(xs, f) + Filter(ys, f)
  {
    if ys == [] {
      assert xs + ys == xs;
    } else {
      var init, last := ys[..|ys| - 1], ys[|ys| - 1];
      assert (xs + ys)[..|xs + ys| - 1] == xs + init;
      FilterConcat(xs, init, f);
    }
  }

  lemma FilterStep<T>(xs: seq<T>, i: nat, f: T -> bool)
    requires i < |xs|
    ensures Filter(xs[..i + 1], f) == Filter(xs[..i], f) + (if f(xs[i]) then [xs[i]] else [])
  {
    assert xs[..i + 1][..i] == xs[..i];
  }

  function Concat<T>(blocks: seq<seq<T>>): (r: seq<T>) {
    if blocks == [] then [] else Concat(blocks[..|blocks| - 1]) + blocks[|blocks| - 1]
  }

  lemma {:induction false} ConcatMembers<T>(blocks: seq<seq<T>>, x: T)
    ensures x in Concat(blocks) <==> exists i :: 0 <= i < |blocks| && x in blocks[i]
  {
    if blocks != [] {
      var init := blocks[..|blocks| - 1];
      ConcatMembers(init, x);
      assert forall i :: 0 <= i < |init| ==> init[i] == blocks[i];
    }
  }

  /** Each element of one sequence is matched by that of the other. */
  ghost predicate Pairwise<A, B>(p: (A, B) -> bool, xs: seq<A>, ys: seq<B>) {
    |xs| == |ys| && forall i :: 0 <= i < |xs| ==> p(xs[i], ys[i])
  }

  lemma PairwiseAppend<A, B>(p: (A, B) -> bool, xs: seq<A>, ys: seq<B>, x: A, y: B)
    requires Pairwise(p, xs, ys) && p(x, y)
    ensures Pairwise(p, xs + [x], ys + [y])
  {}

  lemma PairwiseNext<A, B>(p: (A, B) -> bool, xs: seq<A>, ys: seq<B>, y: B)
    requires |ys| < |xs| && Pairwise(p, xs[..|ys|], ys) && p(xs[|ys|], y)
    ensures Pairwise(p, xs[..|ys| + 1], ys + [y])
  {
    assert xs[..|ys| + 1] == xs[..|ys|] + [xs[|ys|]];
    PairwiseAppend(p, xs[..|ys|], ys, xs[|ys|], y);
  }

  // ---------------------------------------------------------------- counting up

  /** One step of an induction on numbers. */
  ghost predicate Carries(p: nat -> bool, i: nat) { p(i) ==> p(i + 1) }

  lemma {:induction false} Climb(p: nat -> bool, n: nat)
    requires p(0) && forall i: nat {:trigger Carries(p, i)} :: i < n ==> Carries(p, i)
    ensures p(n)
  {
    if n > 0 {
      Climb(p, n - 1);
      assert Carries(p, n - 1);
    }
  }

  lemma {:induction false} ClimbFrom(p: nat -> bool, i: nat, n: nat)
    requires i <= n && p(i) && forall k: nat {:trigger Carries(p, k)} :: i <= k < n ==> Carries(p, k)
    ensures p(n)
  {
    if i < n {
      ClimbFrom(p, i, n - 1);
      assert Carries(p, n - 1);
    }
  }

  // ---------------------------------------------------------------- lookup maps

  /** The map a loop `m[key(x)] = x` builds: the last element with a key wins. */
  function IndexBy<K(!new), V>(xs: seq<V>, key: V -> K): (m: map<K, V>)
    ensures forall k :: k in m <==> exists i :: 0 <= i < |xs| && key(xs[i]) == k
    ensures forall k :: k in m ==> m[k] in xs && key(m[k]) == k
  {
    if xs == [] then map[]
    else
      var m := IndexBy(xs[..|xs| - 1], key);
      var r := m[key(xs[|xs| - 1]) := xs[|xs| - 1]];
      assert xs == xs[..|xs| - 1] + [xs[|xs| - 1]];
      assert forall i :: 0 <= i < |xs| - 1 ==> xs[..|xs| - 1][i] == xs[i];
      r
  }

  /** An element with no later one of its key is the one looked up. */
  lemma {:induction false} LastWins<K(!new), V>(xs: seq<V>, key: V -> K, i: nat)
    requires i < |xs| && forall j :: i < j < |xs| ==> key(xs[j]) != key(xs[i])
    ensures IndexBy(xs, key)[key(xs[i])] == xs[i]
  {
    var init := xs[..|xs| - 1];
    if i < |init| {
      assert init[i] == xs[i];
      LastWins(init, key, i);
    }
  }

  /** Where keys differ, every element is looked up under its own. */
  lemma EachFound<K(!new), V>(xs: seq<V>, key: V -> K)
    requires forall i, j :: 0 <= i < j < |xs| ==> key(xs[i]) != key(xs[j])
    ensures forall x :: x in xs ==> key(x) in IndexBy(xs, key) && IndexBy(xs, key)[key(x)] == x
  {
    forall x | x in xs ensures key(x) in IndexBy(xs, key) && IndexBy(xs, key)[key(x)] == x {
      var i :| 0 <= i < |xs| && xs[i] == x;
      LastWins(xs, key, i);
    }
  }

  method BuildIndex<K(!new, ==), V>(xs: seq<V>, key: V -> K) returns (m: map<K, V>)
    ensures m == IndexBy(xs, key)
  {
    m := map[];
    for i := 0 to |xs|
      invariant m == IndexBy(xs[..i], key)
    {
      assert xs[..i + 1][..i] == xs[..i];
      m := m[key(xs[i]) := xs[i]];
    }
    assert xs[..|xs|] == xs;
  }

  // ---------------------------------------------------------------- string order

  predicate StrLe(a: string, b: string)
    decreases |a|
  {
    a == [] || (b != [] && (a[0] < b[0] || (a[0] == b[0] && StrLe(a[1..], b[1..]))))
  }

  lemma {:induction false} StrLeTotal(a: string, b: string)
    ensures StrLe(a, b) || StrLe(b, a)
    decreases |a|
  {
    if a != [] && b != [] && a[0] == b[0] { StrLeTotal(a[1..], b[1..]); }
  }

  lemma {:induction false} StrLeTransitive(a: string, b: string, c: string)
    requires StrLe(a, b) && StrLe(b, c)
    ensures StrLe(a, c)
    decreases |a|
  {
    if a != [] && a[0] == b[0] && b[0] == c[0] { StrLeTransitive(a[1..], b[1..], c[1..]); }
  }

  lemma {:induction false} StrLeAntisymmetric(a: string, b: string)
    requires StrLe(a, b) && StrLe(b, a)
    ensures a == b
    decreases |a|
  {
    if a != [] {
      StrLeAntisymmetric(a[1..], b[1..]);
      assert a == [a[0]] + a[1..] && b == [b[0]] + b[1..];
    }
  }

  /** Where the two first differ, the smaller character decides; a prefix comes first. */
  ghost predicate Precedes(a: string, b: string) {
    a <= b || exists i :: Diverges(a, b, i)
  }

  ghost predicate Diverges(a: string, b: string, i: int) {
    0 <= i < |a| && i < |b| && a[..i] == b[..i] && a[i] < b[i]
  }

  /** The order is the dictionary's. */
  lemma {:induction false} StrLeMeans(a: string, b: string)
    ensures StrLe(a, b) <==> Precedes(a, b)
    decreases |a|
  {
    if a != [] && b != [] && a[0] == b[0] {
      StrLeMeans(a[1..], b[1..]);
      assert a == [a[0]] + a[1..] && b == [b[0]] + b[1..];
      if i :| Diverges(a[1..], b[1..], i) { assert a[..i + 1] == b[..i + 1] && Diverges(a, b, i + 1); }
      if i :| Diverges(a, b, i) {
        assert i > 0;
        assert a[1..][..i - 1] == a[1..i] == a[..i][1..] && b[1..][..i - 1] == b[1..i] == b[..i][1..];
        assert Diverges(a[1..], b[1..], i - 1);
      }
    } else if a != [] && b != [] {
      if a[0] < b[0] { assert Diverges(a, b, 0); }
      if i :| Diverges(a, b, i) { assert i > 0 ==> a[..i][0] == b[..i][0]; }
    }
  }

  // ---------------------------------------------------------------- sorting

  ghost predicate TotalPreorder<T(!new)>(le: (T, T) -> bool) {
    && (forall a, b :: le(a, b) || le(b, a))
    && (forall a, b, c :: le(a, b) && le(b, c) ==> le(a, c))
  }

  ghost predicate SortedBy<T>(xs: seq<T>, le: (T, T) -> bool) {
    forall i, j :: 0 <= i < j < |xs| ==> le(xs[i], xs[j])
  }

  /** The library sort: some sorted rearrangement; the order of ties is not promised. */
  method SortSlice<T(!new)>(xs: seq<T>, le: (T, T) -> bool) returns (ys: seq<T>)
    requires TotalPreorder(le)
    ensures SortedBy(ys, le)
    ensures multiset(ys) == multiset(xs)
  {
    ys := [];
    for i := 0 to |xs|
      invariant SortedBy(ys, le)
      invariant multiset(ys) == multiset(xs[..i])
    {
      assert xs[..i + 1] == xs[..i] + [xs[i]];
      ys := InsertSorted(ys, xs[i], le);
    }
    assert xs[..|xs|] == xs;
  }

  method InsertSorted<T(!new)>(ys: seq<T>, x: T, le: (T, T) -> bool) returns (r: seq<T>)
    requires TotalPreorder(le) && SortedBy(ys, le)
    ensures SortedBy(r, le)
    ensures multiset(r) == multiset(ys) + multiset{x}
  {
    var k := 0;
    while k < |ys| && le(ys[k], x)
      invariant 0 <= k <= |ys|
      invariant forall j :: 0 <= j < k ==> le(ys[j], x)
    {
      k := k + 1;
    }
    assert k < |ys| ==> le(x, ys[k]);
    InsertedInOrder(ys, k, x, le);
    assert ys == ys[..k] + ys[k..];
    r := ys[..k] + [x] + ys[k..];
  }

  lemma InsertedInOrder<T(!new)>(ys: seq<T>, k: nat, x: T, le: (T, T) -> bool)
    requires TotalPreorder(le) && SortedBy(ys, le) && k <= |ys|
    requires forall j :: 0 <= j < k ==> le(ys[j], x)
    requires k < |ys| ==> le(x, ys[k])
    ensures SortedBy(ys[..k] + [x] + ys[k..], le)
  {
    var r := ys[..k] + [x] + ys[k..];
    forall j | k <= j < |ys| ensures le(x, ys[j]) {
      if k < j { assert le(ys[k], ys[j]); }
    }
    forall i, j | 0 <= i < j < |r| ensures le(r[i], r[j]) {
      var a, b := if i < k then i else i - 1, if j < k then j else j - 1;
      if i != k && j != k { assert r[i] == ys[a] && r[j] == ys[b] && le(ys[a], ys[b]); }
    }
  }

  /** Ranging over a map's keys: every key once, in an order Go does not promise. */
  method Enumerate<T(==)>(s: set<T>) returns (xs: seq<T>)
    ensures multiset(xs) == multiset(s)
  {
    xs := [];
    var rest := s;
    while rest != {}
      invariant rest <= s
      invariant multiset(xs) == multiset(s - rest)
      decreases rest
    {
      var x :| x in rest;
      assert s - (rest - {x}) == (s - rest) + {x};
      rest := rest - {x};
      xs := xs + [x];
    }
    assert s - rest == s;
  }

  method SortedElements<T(!new, ==)>(s: set<T>, le: (T, T) -> bool) returns (ys: seq<T>)
    requires TotalPreorder(le)
    ensures SortedBy(ys, le)
    ensures Lists(ys, s)
  {
    var xs := Enumerate(s);
    ys := SortSlice(xs, le);
    ListsFromMultiset(ys, s);
  }

  /** `xs` lists every element of `s` exactly once. */
  ghost predicate Lists<T(!new)>(xs: seq<T>, s: set<T>) {
    && (forall x :: x in xs <==> x in s)
    && (forall i, j :: 0 <= i < j < |xs| ==> xs[i] != xs[j])
  }

  lemma {:induction false} Listing<T(!new)>(s: set<T>) returns (xs: seq<T>)
    ensures Lists(xs, s)
  {
    if s == {} {
      xs := [];
    } else {
      var x :| x in s;
      var rest := Listing(s - {x});
      xs := rest + [x];
    }
  }

  lemma ListsFromMultiset<T(!new)>(xs: seq<T>, s: set<T>)
    requires multiset(xs) == multiset(s)
    ensures Lists(xs, s)
  {
    assert forall x :: x in xs <==> x in multiset(xs);
    forall i, j | 0 <= i < j < |xs|
      ensures xs[i] != xs[j]
    {
      assert xs == xs[..i] + [xs[i]] + xs[i + 1..j] + [xs[j]] + xs[j + 1..];
      assert multiset(xs)[xs[i]] <= 1;
    }
  }

  lemma {:induction false} ListsSize<T(!new)>(xs: seq<T>, s: set<T>)
    requires Lists(xs, s)
    ensures |xs| == |s|
  {
    if xs == [] {
      assert s == {};
    } else {
      var init, last := xs[..|xs| - 1], xs[|xs| - 1];
      assert xs == init + [last];
      assert last in xs;
      ListsSize(init, s - {last});
    }
  }

  lemma {:induction false} SubsetSize<T>(a: set<T>, b: set<T>)
    requires a <= b
    ensures |a| <= |b|
  {
    if a != {} {
      var x :| x in a;
      SubsetSize(a - {x}, b - {x});
    }
  }

  lemma StrOrder()
    ensures TotalPreorder(StrLe)
  {
    forall a: string, b: string ensures StrLe(a, b) || StrLe(b, a) { StrLeTotal(a, b); }
    forall a: string, b: string, c: string | StrLe(a, b) && StrLe(b, c) ensures StrLe(a, c) {
      StrLeTransitive(a, b, c);
    }
  }

  // ---------------------------------------------------------------- decimals

  function Itoa(n: nat): (s: string)
    ensures s != []
    ensures forall c :: c in s ==> '0' <= c <= '9'
  {
    var digit := [('0' as int + n % 10) as char];
    if n < 10 then digit else Itoa(n / 10) + digit
  }

  predicate Digits(s: string) { forall i | 0 <= i < |s| :: '0' <= s[i] <= '9' }

  /** The number a string of digits stands for. */
  function Atoi(s: string): (r: nat)
    requires Digits(s)
  {
    if s == [] then 0 else 10 * Atoi(s[..|s| - 1]) + (s[|s| - 1] as int - '0' as int)
  }

  /** Decimal rendering: it stands for the number, without a leading zero. */
  lemma {:induction false} ItoaMeans(n: nat)
    ensures Digits(Itoa(n)) && Atoi(Itoa(n)) == n
    ensures n > 0 ==> Itoa(n)[0] != '0'
  {
    var digit := [('0' as int + n % 10) as char];
    assert Digits(Itoa(n)) by {
      forall i | 0 <= i < |Itoa(n)| ensures '0' <= Itoa(n)[i] <= '9' { assert Itoa(n)[i] in Itoa(n); }
    }
    if n >= 10 {
      ItoaMeans(n / 10);
      assert (Itoa(n / 10) + digit)[..|Itoa(n / 10)|] == Itoa(n / 10);
    } else {
      assert digit[..0] == [];
    }
  }

  lemma {:induction false} ItoaInjective(m: nat, n: nat)
    requires Itoa(m) == Itoa(n)
    ensures m == n
  {
    var a, b := Itoa(m), Itoa(n);
    assert a[|a| - 1] == b[|b| - 1];
    assert m % 10 == n % 10;
    if m >= 10 && n >= 10 {
      assert a[..|a| - 1] == Itoa(m / 10) && b[..|b| - 1] == Itoa(n / 10);
      ItoaInjective(m / 10, n / 10);
    }
  }
}
