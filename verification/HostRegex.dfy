/** The host patterns as the regular expressions they are, and the recognisers judged by them. */
module HostRegex {
  import opened Basics
  import opened Match

  /** One character of a class, a sequence, or between `min` and `max` repetitions. */
  datatype Regex =
    | OneOf(chars: char -> bool)
    | Then(first: Regex, second: Regex)
    | Repeat(body: Regex, min: nat, max: Option<nat>)

  ghost predicate Accepts(re: Regex, s: string)
    decreases re
  {
    match re
    case OneOf(f) => |s| == 1 && f(s[0])
    case Then(a, b) => exists i: nat :: i <= |s| && Accepts(a, s[..i]) && Accepts(b, s[i..])
    case Repeat(body, min, max) =>
      exists parts: seq<string> ::
        && min <= |parts| && (max.Some? ==> |parts| <= max.value)
        && s == Concat(parts) && forall i :: 0 <= i < |parts| ==> Accepts(body, parts[i])
  }

  const ALNUM: char -> bool := (c: char) => 'a' <= c <= 'z' || 'A' <= c <= 'Z' || '0' <= c <= '9'
  const ALNUM_HYPHEN: char -> bool := (c: char) => ALNUM(c) || c == '-'

  /** hostLabel: `[a-zA-Z0-9]([a-zA-Z0-9-]{0,61}[a-zA-Z0-9])?` */
  const RUN := Repeat(OneOf(ALNUM_HYPHEN), 0, Some(61))
  const TAIL := Then(RUN, OneOf(ALNUM))
  const LABEL := Then(OneOf(ALNUM), Repeat(TAIL, 0, Some(1)))

  /** hostnameRe: a label, then a dot and a label any number of times. */
  const IS_DOT: char -> bool := (c: char) => c == '.'
  const DOTTED := Then(OneOf(IS_DOT), LABEL)
  const HOSTNAME := Then(LABEL, Repeat(DOTTED, 0, None))

  /** hostPortRe: a hostname, a colon, one to five digits. */
  const IS_COLON: char -> bool := (c: char) => c == ':'
  const IS_DIGIT: char -> bool := (c: char) => '0' <= c <= '9'
  const DIGITS := Repeat(OneOf(IS_DIGIT), 1, Some(5))
  const PORT := Then(OneOf(IS_COLON), DIGITS)
  const HOST_PORT := Then(HOSTNAME, PORT)

  // ---------------------------------------------------------------- characters

  function Singles(s: string): (r: seq<string>)
    ensures |r| == |s| && forall i :: 0 <= i < |r| ==> r[i] == [s[i]]
  {
    seq(|s|, i requires 0 <= i < |s| => [s[i]])
  }

  lemma {:induction false} ConcatSingles(s: string)
    ensures Concat(Singles(s)) == s
  {
    if s != [] {
      ConcatSingles(s[..|s| - 1]);
      assert Singles(s)[..|s| - 1] == Singles(s[..|s| - 1]);
      assert s == s[..|s| - 1] + [s[|s| - 1]];
    } else {
      assert Singles(s) == [];
    }
  }

  lemma {:induction false} ConcatOnes(parts: seq<string>, f: char -> bool)
    requires forall i :: 0 <= i < |parts| ==> |parts[i]| == 1 && f(parts[i][0])
    ensures |Concat(parts)| == |parts| && forall i :: 0 <= i < |Concat(parts)| ==> f(Concat(parts)[i])
  {
    if parts != [] { ConcatOnes(parts[..|parts| - 1], f); }
  }

  /** A repeated class accepts strings of its characters. */
  lemma RunMeans(f: char -> bool, min: nat, max: Option<nat>, s: string)
    ensures Accepts(Repeat(OneOf(f), min, max), s) <==>
      min <= |s| && (max.Some? ==> |s| <= max.value) && forall i :: 0 <= i < |s| ==> f(s[i])
  {
    if Accepts(Repeat(OneOf(f), min, max), s) {
      var parts: seq<string> :|
        && min <= |parts| && (max.Some? ==> |parts| <= max.value)
        && s == Concat(parts) && forall i :: 0 <= i < |parts| ==> Accepts(OneOf(f), parts[i]);
      ConcatOnes(parts, f);
    }
    if min <= |s| && (max.Some? ==> |s| <= max.value) && forall i :: 0 <= i < |s| ==> f(s[i]) {
      ConcatSingles(s);
      assert forall i :: 0 <= i < |s| ==> Accepts(OneOf(f), Singles(s)[i]);
    }
  }

  lemma Alone(s: string)
    ensures Concat([s]) == s
  {
    assert [s][..0] == [];
  }

  /** An optional part is there or not. */
  lemma OptionalMeans(body: Regex, s: string)
    ensures Accepts(Repeat(body, 0, Some(1)), s) <==> s == "" || Accepts(body, s)
  {
    Alone(s);
    if Accepts(Repeat(body, 0, Some(1)), s) {
      var parts: seq<string> :|
        0 <= |parts| && |parts| <= 1 && s == Concat(parts) && forall i :: 0 <= i < |parts| ==> Accepts(body, parts[i]);
      if |parts| == 1 {
        assert parts == [parts[0]];
        Alone(parts[0]);
      }
    }
    if s == "" {
      var none: seq<string> := [];
      assert s == Concat(none);
    }
    if Accepts(body, s) { assert s == Concat([s]); }
  }

  /** A class followed by a pattern, and a pattern followed by a class. */
  lemma ThenAfterOne(f: char -> bool, b: Regex, s: string)
    ensures Accepts(Then(OneOf(f), b), s) <==> s != "" && f(s[0]) && Accepts(b, s[1..])
  {
    if Accepts(Then(OneOf(f), b), s) {
      var i: nat :| i <= |s| && Accepts(OneOf(f), s[..i]) && Accepts(b, s[i..]);
      assert |s[..i]| == 1 && s[..i][0] == s[0];
    }
    if s != "" && f(s[0]) && Accepts(b, s[1..]) { assert Accepts(OneOf(f), s[..1]); }
  }

  lemma ThenOne(a: Regex, f: char -> bool, s: string)
    ensures Accepts(Then(a, OneOf(f)), s) <==> s != "" && f(s[|s| - 1]) && Accepts(a, s[..|s| - 1])
  {
    if Accepts(Then(a, OneOf(f)), s) {
      var i := ThenSplits(a, OneOf(f), s);
      LastOne(f, s, i);
    }
    if s != "" && f(s[|s| - 1]) && Accepts(a, s[..|s| - 1]) {
      LastOne(f, s, |s| - 1);
      ThenAt(a, OneOf(f), s, |s| - 1);
    }
  }

  lemma LastOne(f: char -> bool, s: string, i: nat)
    requires i <= |s|
    ensures Accepts(OneOf(f), s[i..]) <==> s != "" && i == |s| - 1 && f(s[i])
  {}

  lemma ThenAt(a: Regex, b: Regex, s: string, i: nat)
    requires i <= |s| && Accepts(a, s[..i]) && Accepts(b, s[i..])
    ensures Accepts(Then(a, b), s)
  {}

  lemma ThenSplits(a: Regex, b: Regex, s: string) returns (i: nat)
    requires Accepts(Then(a, b), s)
    ensures i <= |s| && Accepts(a, s[..i]) && Accepts(b, s[i..])
  {
    i :| i <= |s| && Accepts(a, s[..i]) && Accepts(b, s[i..]);
  }

  // ---------------------------------------------------------------- one label

  predicate IsTail(s: string) {
    1 <= |s| <= 62 && ALNUM(s[|s| - 1]) && forall i | 0 <= i < |s| - 1 :: ALNUM_HYPHEN(s[i])
  }

  lemma TailMeans(s: string)
    ensures Accepts(TAIL, s) <==> IsTail(s)
  {
    ThenOne(RUN, ALNUM, s);
    if s != "" { RunBefore(s, |s| - 1); }
  }

  lemma RunBefore(s: string, n: nat)
    requires n <= |s|
    ensures Accepts(RUN, s[..n]) <==> n <= 61 && forall i :: 0 <= i < n ==> ALNUM_HYPHEN(s[i])
  {
    var init := s[..n];
    assert |init| == n && forall i :: 0 <= i < n ==> init[i] == s[i];
    RunMeans(ALNUM_HYPHEN, 0, Some(61), init);
  }

  lemma LabelIsTail(s: string)
    ensures IsLabel(s) <==> s != "" && ALNUM(s[0]) && (s[1..] == "" || IsTail(s[1..]))
  {
    if s != "" && ALNUM(s[0]) && IsTail(s[1..]) {
      forall k | 0 <= k < |s| ensures Alphanumeric(s[k]) || s[k] == '-' {
        if 0 < k < |s| - 1 { assert ALNUM_HYPHEN(s[1..][k - 1]); }
      }
    }
  }

  /** The label recogniser is the label pattern. */
  lemma LabelMatches(s: string)
    ensures Accepts(LABEL, s) <==> IsLabel(s)
  {
    ThenAfterOne(ALNUM, Repeat(TAIL, 0, Some(1)), s);
    if s != "" {
      OptionalMeans(TAIL, s[1..]);
      TailMeans(s[1..]);
    }
    LabelIsTail(s);
  }

  // ---------------------------------------------------------------- a hostname

  predicate IsDotted(s: string) { s != "" && s[0] == '.' && IsLabel(s[1..]) }

  lemma DottedMeans(s: string)
    ensures Accepts(DOTTED, s) <==> IsDotted(s)
  {
    ThenAfterOne(IS_DOT, LABEL, s);
    if s != "" { LabelMatches(s[1..]); }
  }

  lemma ConcatCons(x: string, xs: seq<string>)
    ensures Concat([x] + xs) == x + Concat(xs)
    decreases |xs|
  {
    if xs == [] {
      Alone(x);
      assert [x] + xs == [x];
    } else {
      assert ([x] + xs)[..|xs|] == [x] + xs[..|xs| - 1];
      ConcatCons(x, xs[..|xs| - 1]);
    }
  }

  /** Joining labels is the first, then each of the others after a dot. */
  lemma {:induction false} JoinIsDotted(labels: seq<string>)
    requires labels != []
    ensures Join(labels, '.') == labels[0] + Concat(Tails(labels))
  {
    var rest := labels[1..];
    if rest == [] {
      assert Tails(labels) == [];
    } else {
      JoinIsDotted(rest);
      assert Tails(labels) == [['.'] + labels[1]] + Tails(rest);
      ConcatCons(['.'] + labels[1], Tails(rest));
    }
  }

  function Tails(labels: seq<string>): (r: seq<string>)
    requires labels != []
    ensures |r| == |labels| - 1 && forall i :: 0 <= i < |r| ==> r[i] == ['.'] + labels[i + 1]
  {
    seq(|labels| - 1, i requires 0 <= i < |labels| - 1 => ['.'] + labels[i + 1])
  }

  /** A hostname's continuation: strings of a dot and a label each. */
  ghost predicate Continues(s: string, parts: seq<string>) {
    s == Concat(parts) && forall i :: 0 <= i < |parts| ==> IsDotted(parts[i])
  }

  lemma ContinuationMeans(s: string)
    ensures Accepts(Repeat(DOTTED, 0, None), s) <==> exists parts :: Continues(s, parts)
  {
    if Accepts(Repeat(DOTTED, 0, None), s) {
      var parts: seq<string> :| 0 <= |parts| && s == Concat(parts)
        && forall i :: 0 <= i < |parts| ==> Accepts(DOTTED, parts[i]);
      forall i | 0 <= i < |parts| ensures IsDotted(parts[i]) { DottedMeans(parts[i]); }
      assert Continues(s, parts);
    }
    if parts :| Continues(s, parts) {
      forall i | 0 <= i < |parts| ensures Accepts(DOTTED, parts[i]) { DottedMeans(parts[i]); }
      RepeatOf(DOTTED, parts);
    }
  }

  lemma RepeatOf(body: Regex, parts: seq<string>)
    requires forall i :: 0 <= i < |parts| ==> Accepts(body, parts[i])
    ensures Accepts(Repeat(body, 0, None), Concat(parts))
  {}

  /** The labels of a string that the pattern takes apart. */
  lemma LabelsOf(first: string, rest: string, parts: seq<string>) returns (labels: seq<string>)
    requires IsLabel(first) && Continues(rest, parts)
    ensures labels != [] && AreLabels(labels) && Join(labels, '.') == first + rest
  {
    var tails := seq(|parts|, i requires 0 <= i < |parts| => parts[i][1..]);
    labels := [first] + tails;
    forall i | 0 <= i < |parts| ensures parts[i] == ['.'] + tails[i] && IsLabel(tails[i]) {
      assert IsDotted(parts[i]);
    }
    forall i | 0 <= i < |labels| ensures IsLabel(labels[i]) {
      if i > 0 { assert labels[i] == tails[i - 1]; }
    }
    assert Tails(labels) == parts;
    JoinIsDotted(labels);
  }

  lemma LabelsContinue(labels: seq<string>)
    requires labels != [] && AreLabels(labels)
    ensures Continues(Concat(Tails(labels)), Tails(labels))
  {
    forall k | 0 <= k < |labels| - 1 ensures IsDotted(Tails(labels)[k]) {
      assert Tails(labels)[k][1..] == labels[k + 1] && IsLabel(labels[k + 1]);
    }
  }

  /** The hostname recogniser is the hostname pattern. */
  lemma HostnameMatches(s: string)
    ensures Accepts(HOSTNAME, s) <==> IsHostname(s)
  {
    if Accepts(HOSTNAME, s) {
      var i := ThenSplits(LABEL, Repeat(DOTTED, 0, None), s);
      LabelMatches(s[..i]);
      ContinuationMeans(s[i..]);
      PartsAreHostname(s, i);
    }
    if IsHostname(s) {
      var i := FirstLabel(s);
      LabelMatches(s[..i]);
      ContinuationMeans(s[i..]);
      ThenAt(LABEL, Repeat(DOTTED, 0, None), s, i);
    }
  }

  lemma PartsAreHostname(s: string, i: nat)
    requires i <= |s| && IsLabel(s[..i]) && exists parts :: Continues(s[i..], parts)
    ensures IsHostname(s)
  {
    var parts :| Continues(s[i..], parts);
    var labels := LabelsOf(s[..i], s[i..], parts);
    assert s == s[..i] + s[i..];
    HostJoins(labels);
  }

  lemma FirstLabel(s: string) returns (i: nat)
    requires IsHostname(s)
    ensures i <= |s| && IsLabel(s[..i]) && exists parts :: Continues(s[i..], parts)
  {
    var labels := Split(s, '.');
    JoinSplit(s, '.');
    JoinIsDotted(labels);
    LabelsContinue(labels);
    i := |labels[0]|;
    assert s[..i] == labels[0] && s[i..] == Concat(Tails(labels));
    assert IsLabel(labels[0]);
  }

  // ---------------------------------------------------------------- a host and a port

  lemma PortMatches(s: string)
    ensures Accepts(PORT, s) <==> s != "" && s[0] == ':' && IsPort(s[1..])
  {
    ThenAfterOne(IS_COLON, DIGITS, s);
    if s != "" { RunMeans(IS_DIGIT, 1, Some(5), s[1..]); }
  }

  lemma HostHasNoColon(h: string)
    requires IsHostname(h)
    ensures ':' !in h
  {
    JoinSplit(h, '.');
    HostJoins(Split(h, '.'));
  }

  lemma SplitInTwo(h: string, port: string, v: string)
    requires ':' !in h && ':' !in port && v == h + [':'] + port
    ensures Split(v, ':') == [h, port]
  {
    SplitPrefix(h, port, ':');
    SplitPlain(port, ':');
  }

  lemma Around(v: string, i: nat)
    requires i < |v|
    ensures v == v[..i] + [v[i]] + v[i + 1..]
  {}

  lemma SplitAtColon(v: string, i: nat)
    requires i < |v| && v[i] == ':' && ':' !in v[..i] && ':' !in v[i + 1..]
    ensures Split(v, ':') == [v[..i], v[i + 1..]]
  {
    Around(v, i);
    SplitInTwo(v[..i], v[i + 1..], v);
  }

  /** The pattern's first group can capture the first `i` characters. */
  ghost predicate Captures(v: string, i: nat) {
    i <= |v| && Accepts(HOSTNAME, v[..i]) && Accepts(PORT, v[i..])
  }

  ghost predicate HostThenPort(v: string) {
    |Split(v, ':')| == 2 && IsHostname(Split(v, ':')[0]) && IsPort(Split(v, ':')[1])
  }

  /** Where the pattern can split a value is where its only colon is. */
  lemma HostPortAt(v: string, i: nat)
    requires Captures(v, i)
    ensures HostThenPort(v) && Split(v, ':')[0] == v[..i]
  {
    HostnameMatches(v[..i]);
    PortMatches(v[i..]);
    assert v[i..][1..] == v[i + 1..];
    HostHasNoColon(v[..i]);
    SplitAtColon(v, i);
  }

  lemma HostPortAccepted(v: string) returns (i: nat)
    requires Accepts(HOST_PORT, v)
    ensures Captures(v, i)
  {
    i := ThenSplits(HOSTNAME, PORT, v);
  }

  /** The host-and-port recogniser is the host-and-port pattern, and the host it returns is what the
      pattern's first group captures. */
  lemma HostPortMatches(v: string)
    ensures Accepts(HOST_PORT, v) <==> HostThenPort(v)
    ensures forall i: nat :: Captures(v, i) ==> |Split(v, ':')| == 2 && Split(v, ':')[0] == v[..i]
  {
    forall i: nat | Captures(v, i) ensures |Split(v, ':')| == 2 && Split(v, ':')[0] == v[..i] { HostPortAt(v, i); }
    if Accepts(HOST_PORT, v) {
      var i := HostPortAccepted(v);
      HostPortAt(v, i);
    }
    if HostThenPort(v) { HostPortSplit(v); }
  }

  lemma HostPortSplit(v: string)
    requires HostThenPort(v)
    ensures Accepts(HOST_PORT, v)
  {
    var i := ColonAt(v);
    HostnameMatches(v[..i]);
    PortMatches(v[i..]);
    ThenAt(HOSTNAME, PORT, v, i);
  }

  lemma ColonAt(v: string) returns (i: nat)
    requires |Split(v, ':')| == 2
    ensures i < |v| && v[..i] == Split(v, ':')[0] && v[i..] != "" && v[i..][0] == ':' && v[i..][1..] == Split(v, ':')[1]
  {
    var parts := Split(v, ':');
    i := |parts[0]|;
    JoinSplit(v, ':');
    assert parts[1..] == [parts[1]];
    assert v == parts[0] + [':'] + parts[1];
  }
}
