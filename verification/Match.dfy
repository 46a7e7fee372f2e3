/** internal/depgraph/match.go: which Service a literal environment value names. */
module Match {
  import opened Basics
  import opened Cluster

  // ---------------------------------------------------------------- splitting

  function Split(s: string, sep: char): (r: seq<string>)
    ensures r != []
  {
    if s == "" then [""]
    else
      var rest := Split(s[1..], sep);
      if s[0] == sep then [""] + rest else [[s[0]] + rest[0]] + rest[1..]
  }

  function Join(parts: seq<string>, sep: char): (r: string)
    requires parts != []
  {
    if |parts| == 1 then parts[0] else parts[0] + [sep] + Join(parts[1..], sep)
  }

  ghost predicate Free(parts: seq<string>, sep: char) {
    forall i :: 0 <= i < |parts| ==> sep !in parts[i]
  }

  lemma {:induction false} JoinSplit(s: string, sep: char)
    ensures Free(Split(s, sep), sep)
    ensures Join(Split(s, sep), sep) == s
  {
    if s != "" {
      JoinSplit(s[1..], sep);
      var rest := Split(s[1..], sep);
      if s[0] == sep {
        assert ([""] + rest)[1..] == rest;
      } else {
        var r := [[s[0]] + rest[0]] + rest[1..];
        assert r[1..] == rest[1..];
        assert s == [s[0]] + s[1..];
      }
    }
  }

  lemma {:induction false} SplitPlain(s: string, sep: char)
    requires sep !in s
    ensures Split(s, sep) == [s]
  {
    if s != "" {
      SplitPlain(s[1..], sep);
      assert s == [s[0]] + s[1..];
    }
  }

  lemma {:induction false} SplitPrefix(a: string, b: string, sep: char)
    requires sep !in a
    ensures Split(a + [sep] + b, sep) == [a] + Split(b, sep)
  {
    var s := a + [sep] + b;
    if a == "" {
      assert s[1..] == b;
    } else {
      assert s[1..] == a[1..] + [sep] + b;
      SplitPrefix(a[1..], b, sep);
      assert [a[0]] + a[1..] == a;
    }
  }

  lemma {:induction false} SplitJoin(parts: seq<string>, sep: char)
    requires parts != [] && Free(parts, sep)
    ensures Split(Join(parts, sep), sep) == parts
  {
    assert sep !in parts[0];
    if |parts| == 1 {
      SplitPlain(parts[0], sep);
    } else {
      var tail := parts[1..];
      assert Free(tail, sep) by {
        forall i | 0 <= i < |tail| ensures sep !in tail[i] { assert tail[i] == parts[i + 1]; }
      }
      SplitJoin(tail, sep);
      SplitPrefix(parts[0], Join(tail, sep), sep);
      assert parts == [parts[0]] + tail;
    }
  }

  // ---------------------------------------------------------------- recognising hosts

  predicate IsSpace(c: char) {
    || '\t' <= c <= '\r'
    || c == ' ' || c == '\U{0085}' || c == '\U{00A0}' || c == '\U{1680}' || c == '\U{2028}'
    || c == '\U{2029}' || c == '\U{202F}' || c == '\U{205F}' || c == '\U{3000}'
    || '\U{2000}' <= c <= '\U{200A}'
  }

  predicate Alphanumeric(c: char) { 'a' <= c <= 'z' || 'A' <= c <= 'Z' || '0' <= c <= '9' }

  /** One DNS label, section 2.1 of RFC 1123. */
  predicate IsLabel(s: string) {
    && 1 <= |s| <= 63
    && Alphanumeric(s[0]) && Alphanumeric(s[|s| - 1])
    && forall i | 0 <= i < |s| :: Alphanumeric(s[i]) || s[i] == '-'
  }

  predicate AreLabels(parts: seq<string>) { forall i | 0 <= i < |parts| :: IsLabel(parts[i]) }

  predicate IsHostname(s: string) { AreLabels(Split(s, '.')) }

  predicate IsPort(s: string) { 1 <= |s| <= 5 && forall i | 0 <= i < |s| :: '0' <= s[i] <= '9' }

  predicate HasScheme(v: string) {
    exists i | 0 <= i < |v| - 2 :: v[i] == ':' && v[i + 1] == '/' && v[i + 2] == '/'
  }

  datatype Host = Host(name: string, proven: bool)

  /** `urlHost` stands for url.Parse followed by Hostname: None for an error or no host. */
  function ExtractHostCandidate(value: string, urlHost: string -> Option<string>): (r: Option<Host>) {
    if value == "" || IsSpace(value[0]) || IsSpace(value[|value| - 1]) then None
    else if HasScheme(value) then
      match urlHost(value)
      case Some(h) => Some(Host(h, true))
      case None => None
    else
      var byColon := Split(value, ':');
      if |byColon| == 2 && IsHostname(byColon[0]) && IsPort(byColon[1]) then Some(Host(byColon[0], true))
      else if IsHostname(value) then Some(Host(value, '.' in value))
      else None
  }

  // ---------------------------------------------------------------- naming a Service

  function TrimDot(s: string): (r: string) {
    if s != "" && s[|s| - 1] == '.' then s[..|s| - 1] else s
  }

  function Existing(services: set<ServiceKey>, key: ServiceKey): (r: Option<ServiceKey>) {
    if key in services then Some(key) else None
  }

  function MatchService(host: Host, workloadNamespace: string, services: set<ServiceKey>): (r: Option<ServiceKey>) {
    var labels := Split(TrimDot(host.name), '.');
    if |labels| == 1 then
      if host.proven then Existing(services, ServiceKey(workloadNamespace, labels[0])) else None
    else if |labels| == 2 then Existing(services, ServiceKey(labels[1], labels[0]))
    else if labels[2] == "svc" then Existing(services, ServiceKey(labels[1], labels[0]))
    else None
  }

  function MatchServiceRef(value: string, workloadNamespace: string, services: set<ServiceKey>,
                           urlHost: string -> Option<string>): (r: Option<ServiceKey>) {
    match ExtractHostCandidate(value, urlHost)
    case Some(h) => MatchService(h, workloadNamespace, services)
    case None => None
  }

  // ---------------------------------------------------------------- DNS rendering

  /** The ways a workload writes down a Service's DNS name. */
  datatype Form =
    | Short(port: string)
    | Qualified(optPort: Option<string>)
    | Full(suffix: seq<string>, optPort: Option<string>)

  function Parts(key: ServiceKey, form: Form): (r: seq<string>)
    ensures r != []
  {
    match form
    case Short(_) => [key.name]
    case Qualified(_) => [key.name, key.namespace]
    case Full(suffix, _) => [key.name, key.namespace, "svc"] + suffix
  }

  function PortOf(form: Form): (r: Option<string>) {
    match form
    case Short(p) => Some(p)
    case Qualified(p) => p
    case Full(_, p) => p
  }

  function Render(key: ServiceKey, form: Form): (r: string) {
    var host := Join(Parts(key, form), '.');
    match PortOf(form)
    case Some(p) => host + ":" + p
    case None => host
  }

  /** Well-formed for this workload: valid labels and port, and the short form, which names
      no namespace, only inside the Service's own. */
  predicate Fits(key: ServiceKey, form: Form, workloadNamespace: string) {
    && AreLabels(Parts(key, form))
    && (PortOf(form).Some? ==> IsPort(PortOf(form).value))
    && (form.Short? ==> key.namespace == workloadNamespace)
  }

  lemma LabelsFree(parts: seq<string>, sep: char)
    requires AreLabels(parts) && !Alphanumeric(sep) && sep != '-'
    ensures Free(parts, sep)
  {
    forall i | 0 <= i < |parts| ensures sep !in parts[i] { assert IsLabel(parts[i]); }
  }

  lemma {:induction false} JoinChars(parts: seq<string>)
    requires parts != [] && AreLabels(parts)
    ensures var s := Join(parts, '.');
      && s != "" && Alphanumeric(s[0]) && Alphanumeric(s[|s| - 1])
      && forall c :: c in s ==> Alphanumeric(c) || c == '-' || c == '.'
  {
    assert IsLabel(parts[0]);
    if |parts| > 1 {
      var tail := parts[1..];
      assert AreLabels(tail) by {
        forall i | 0 <= i < |tail| ensures IsLabel(tail[i]) { assert tail[i] == parts[i + 1]; }
      }
      JoinChars(tail);
    }
  }

  lemma {:induction false} JoinDots(parts: seq<string>, sep: char)
    requires |parts| > 1
    ensures sep in Join(parts, sep)
  {}

  ghost predicate HostShaped(v: string) {
    v != "" && Alphanumeric(v[0]) && Alphanumeric(v[|v| - 1]) && ':' !in v && '/' !in v
  }

  lemma NoSlashNoScheme(v: string)
    requires '/' !in v
    ensures !HasScheme(v)
  {}

  lemma HostJoins(parts: seq<string>)
    requires parts != [] && AreLabels(parts)
    ensures Split(Join(parts, '.'), '.') == parts
    ensures IsHostname(Join(parts, '.')) && HostShaped(Join(parts, '.'))
    ensures '.' in Join(parts, '.') <==> |parts| > 1
    ensures TrimDot(Join(parts, '.')) == Join(parts, '.')
  {
    JoinChars(parts);
    LabelsFree(parts, '.');
    SplitJoin(parts, '.');
    if |parts| > 1 { JoinDots(parts, '.'); } else { assert Free(parts, '.'); }
  }

  lemma ExtractWithPort(host: string, port: string, urlHost: string -> Option<string>)
    requires HostShaped(host) && IsHostname(host) && IsPort(port)
    ensures !HasScheme(host + ":" + port)
    ensures ExtractHostCandidate(host + ":" + port, urlHost) == Some(Host(host, true))
  {
    var v := host + ":" + port;
    SplitPrefix(host, port, ':');
    SplitPlain(port, ':');
    assert v == host + [':'] + port;
    assert Split(v, ':') == [host, port];
    assert v[0] == host[0] && v[|v| - 1] == port[|port| - 1];
    assert '/' !in port;
    NoSlashNoScheme(v);
  }

  lemma ExtractBare(v: string, urlHost: string -> Option<string>)
    requires HostShaped(v) && IsHostname(v)
    ensures !HasScheme(v) && ExtractHostCandidate(v, urlHost) == Some(Host(v, '.' in v))
  {
    SplitPlain(v, ':');
    NoSlashNoScheme(v);
  }

  lemma HostMatches(key: ServiceKey, form: Form, workloadNamespace: string, services: set<ServiceKey>)
    requires Fits(key, form, workloadNamespace) && key in services
    ensures var host := Join(Parts(key, form), '.');
      MatchService(Host(host, form.Short? || '.' in host), workloadNamespace, services) == Some(key)
  {
    HostJoins(Parts(key, form));
  }

  lemma RenderExtracts(key: ServiceKey, form: Form, workloadNamespace: string, urlHost: string -> Option<string>)
    requires Fits(key, form, workloadNamespace)
    ensures !HasScheme(Render(key, form))
    ensures var host := Join(Parts(key, form), '.');
      ExtractHostCandidate(Render(key, form), urlHost) == Some(Host(host, form.Short? || '.' in host))
  {
    var parts := Parts(key, form);
    HostJoins(parts);
    match PortOf(form)
    case Some(p) => ExtractWithPort(Join(parts, '.'), p, urlHost);
    case None => ExtractBare(Join(parts, '.'), urlHost);
  }

  /** Matching undoes rendering: from any workload the form is written for, the name of an
      existing Service leads back to exactly that Service. */
  lemma RenderMatches(key: ServiceKey, form: Form, workloadNamespace: string, services: set<ServiceKey>,
                      urlHost: string -> Option<string>)
    requires Fits(key, form, workloadNamespace) && key in services
    ensures MatchServiceRef(Render(key, form), workloadNamespace, services, urlHost) == Some(key)
  {
    HostMatches(key, form, workloadNamespace, services);
    RenderExtracts(key, form, workloadNamespace, urlHost);
  }

  /** What the extractor accepted was the host itself, or the host and a port. */
  lemma ExtractInverse(value: string, urlHost: string -> Option<string>) returns (port: Option<string>)
    requires !HasScheme(value) && ExtractHostCandidate(value, urlHost).Some?
    ensures var h := ExtractHostCandidate(value, urlHost).value;
      && IsHostname(h.name)
      && match port
         case Some(p) => IsPort(p) && value == h.name + ":" + p
         case None => value == h.name && h.proven == ('.' in value)
  {
    var byColon := Split(value, ':');
    JoinSplit(value, ':');
    if |byColon| == 2 && IsHostname(byColon[0]) && IsPort(byColon[1]) {
      port := Some(byColon[1]);
      assert byColon[1..] == [byColon[1]];
    } else {
      port := None;
    }
  }

  /** And nothing else matches: a value with no URL scheme that leads to a Service is one of
      its rendered names. */
  lemma MatchIsRendering(value: string, workloadNamespace: string, services: set<ServiceKey>,
                         urlHost: string -> Option<string>) returns (form: Form)
    requires !HasScheme(value)
    requires MatchServiceRef(value, workloadNamespace, services, urlHost).Some?
    ensures var key := MatchServiceRef(value, workloadNamespace, services, urlHost).value;
      key in services && Fits(key, form, workloadNamespace) && value == Render(key, form)
  {
    var h := ExtractHostCandidate(value, urlHost).value;
    var port := ExtractInverse(value, urlHost);
    form := HostForm(h, port, workloadNamespace, services);
  }

  /** A host that matched, read back as a form. */
  lemma HostForm(h: Host, port: Option<string>, workloadNamespace: string, services: set<ServiceKey>)
    returns (form: Form)
    requires IsHostname(h.name) && MatchService(h, workloadNamespace, services).Some?
    requires port.None? ==> h.proven == ('.' in h.name)
    requires port.Some? ==> IsPort(port.value)
    ensures var key := MatchService(h, workloadNamespace, services).value;
      && key in services && Fits(key, form, workloadNamespace)
      && PortOf(form) == port && Join(Parts(key, form), '.') == h.name
  {
    var parts := Split(h.name, '.');
    JoinSplit(h.name, '.');
    HostJoins(parts);
    if |parts| == 1 {
      form := Short(if port.Some? then port.value else "");
    } else if |parts| == 2 {
      form := Qualified(port);
      QualifiedParts(parts, port);
    } else {
      form := Full(parts[3..], port);
      FullParts(parts, port);
    }
  }

  lemma QualifiedParts(parts: seq<string>, port: Option<string>)
    requires |parts| == 2
    ensures Parts(ServiceKey(parts[1], parts[0]), Qualified(port)) == parts
  {
    assert parts == [parts[0], parts[1]];
  }

  lemma FullParts(parts: seq<string>, port: Option<string>)
    requires |parts| >= 3 && parts[2] == "svc"
    ensures Parts(ServiceKey(parts[1], parts[0]), Full(parts[3..], port)) == parts
  {
    assert parts == [parts[0], parts[1], "svc"] + parts[3..];
  }

  /** The exact language of schemeless references. */
  lemma MatchExact(value: string, key: ServiceKey, workloadNamespace: string, services: set<ServiceKey>,
                   urlHost: string -> Option<string>)
    requires !HasScheme(value)
    ensures MatchServiceRef(value, workloadNamespace, services, urlHost) == Some(key)
       <==> key in services && exists form :: Fits(key, form, workloadNamespace) && value == Render(key, form)
  {
    if MatchServiceRef(value, workloadNamespace, services, urlHost) == Some(key) {
      var form := MatchIsRendering(value, workloadNamespace, services, urlHost);
    }
    if key in services && exists form :: Fits(key, form, workloadNamespace) && value == Render(key, form) {
      var form :| Fits(key, form, workloadNamespace) && value == Render(key, form);
      RenderMatches(key, form, workloadNamespace, services, urlHost);
    }
  }

  // ---------------------------------------------------------------- URLs

  /** The form names the Service to a workload of that namespace; the short one only where a host is
      certain, and inside the Service's own namespace. */
  ghost predicate Names(key: ServiceKey, form: Form, workloadNamespace: string, proven: bool) {
    Free(Parts(key, form), '.') && (form.Short? ==> proven && key.namespace == workloadNamespace)
  }

  /** The host is that name, or that name and a final dot. */
  ghost predicate Spells(host: string, name: string) {
    host == name + "." || (host == name && (name == "" || name[|name| - 1] != '.'))
  }

  lemma TrimSpells(host: string, name: string)
    ensures TrimDot(host) == name <==> Spells(host, name)
  {
    if host != "" && host[|host| - 1] == '.' { assert host == host[..|host| - 1] + "."; }
  }

  /** Which Service a host names, if any: that of the form it spells. */
  lemma HostExact(h: Host, key: ServiceKey, workloadNamespace: string, services: set<ServiceKey>)
    ensures MatchService(h, workloadNamespace, services) == Some(key) <==>
      key in services
      && exists form :: Names(key, form, workloadNamespace, h.proven) && Spells(h.name, Join(Parts(key, form), '.'))
  {
    var name := TrimDot(h.name);
    var labels := Split(name, '.');
    JoinSplit(name, '.');
    TrimSpells(h.name, name);
    if MatchService(h, workloadNamespace, services) == Some(key) {
      var form := FormOf(labels);
      FormParts(labels, key);
      assert Names(key, form, workloadNamespace, h.proven) && Spells(h.name, Join(Parts(key, form), '.'));
    }
    if key in services {
      forall form | Names(key, form, workloadNamespace, h.proven) && Spells(h.name, Join(Parts(key, form), '.'))
        ensures MatchService(h, workloadNamespace, services) == Some(key)
      {
        TrimSpells(h.name, Join(Parts(key, form), '.'));
        SplitJoin(Parts(key, form), '.');
      }
    }
  }

  function FormOf(labels: seq<string>): (r: Form) {
    if |labels| <= 1 then Short("") else if |labels| == 2 then Qualified(None) else Full(labels[3..], None)
  }

  lemma FormParts(labels: seq<string>, key: ServiceKey)
    requires labels != [] && key.name == labels[0] && (|labels| >= 2 ==> key.namespace == labels[1])
    requires |labels| >= 3 ==> labels[2] == "svc"
    ensures Parts(key, FormOf(labels)) == labels
  {
    if |labels| == 1 { assert labels == [labels[0]]; }
    else if |labels| == 2 { QualifiedParts(labels, None); }
    else { FullParts(labels, None); }
  }

  predicate Padded(v: string) { v != "" && (IsSpace(v[0]) || IsSpace(v[|v| - 1])) }

  /** The exact language of URLs: the host the URL carries is a certain one, so the short form
      counts; a padded value never matches. */
  lemma MatchUrlExact(value: string, key: ServiceKey, workloadNamespace: string, services: set<ServiceKey>,
                      urlHost: string -> Option<string>)
    requires HasScheme(value)
    ensures MatchServiceRef(value, workloadNamespace, services, urlHost) == Some(key) <==>
      key in services && !Padded(value) && urlHost(value).Some?
      && exists form :: Names(key, form, workloadNamespace, true)
           && Spells(urlHost(value).value, Join(Parts(key, form), '.'))
  {
    if urlHost(value).Some? { HostExact(Host(urlHost(value).value, true), key, workloadNamespace, services); }
  }

  /** A value has a scheme when "://" occurs in it. */
  lemma SchemeMeans(v: string)
    ensures HasScheme(v) <==> exists a: string, b: string :: v == a + "://" + b
  {
    if HasScheme(v) {
      var i :| 0 <= i < |v| - 2 && v[i] == ':' && v[i + 1] == '/' && v[i + 2] == '/';
      assert v == v[..i] + "://" + v[i + 3..];
    }
    if a: string, b: string :| v == a + "://" + b {
      assert v[|a|] == ':' && v[|a| + 1] == '/' && v[|a| + 2] == '/';
    }
  }

  /** A bare word never matches, whatever Services exist. */
  lemma BareWordNeverMatches(word: string, workloadNamespace: string, services: set<ServiceKey>,
                             urlHost: string -> Option<string>)
    requires IsLabel(word)
    ensures MatchServiceRef(word, workloadNamespace, services, urlHost).None?
  {
    SplitPlain(word, ':');
    SplitPlain(word, '.');
  }

  /** Every key returned, through a URL host included, names an existing Service. */
  lemma MatchExists(value: string, workloadNamespace: string, services: set<ServiceKey>,
                    urlHost: string -> Option<string>)
    ensures var r := MatchServiceRef(value, workloadNamespace, services, urlHost);
      r.Some? ==> r.value in services
  {}
}
