/** The notification sink URL: its parser against its printer. */
module SinkUrl {
  import opened Decimal
  import opened Text
  import opened Wrappers

  type Port = p: nat | p <= 0xffff

  datatype SinkTarget = SinkTarget(tls: bool, host: string, port: Port, path: string)

  function DefaultPort(tls: bool): Port {
    if tls then 443 else 80
  }

  /** `str::parse::<u16>`: an optional `+`, then at least one digit, no more than 65535. */
  function ParsePort(s: string): Option<Port> {
    var digits := if |s| > 1 && s[0] == '+' then s[1..] else s;
    if digits == "" || !All(digits, IsDigit) || Value(digits) > 0xffff then None else Some(Value(digits))
  }

  function ParseAuthority(tls: bool, authority: string, path: string): Option<SinkTarget> {
    var j := LastIndexOf(authority, ':');
    var host := authority[..j];
    var port := if j < |authority| then ParsePort(authority[j + 1..]) else Some(DefaultPort(tls));
    if port.None? || host == "" then None else Some(SinkTarget(tls, host, port.value, path))
  }

  function ParseRest(tls: bool, rest: string): Option<SinkTarget> {
    var i := IndexOf(rest, '/');
    if i < |rest| then ParseAuthority(tls, rest[..i], rest[i..]) else ParseAuthority(tls, rest, "/")
  }

  function ParseSink(sink: string): Option<SinkTarget> {
    if StartsWith(sink, "https://") then ParseRest(true, sink[8..])
    else if StartsWith(sink, "http://") then ParseRest(false, sink[7..])
    else None
  }

  /** The `Host` header: the port appears only when it is not the scheme's own. */
  function HostHeader(t: SinkTarget): string {
    if t.port == DefaultPort(t.tls) then t.host else t.host + [':'] + Digits(t.port)
  }

  function PrintSink(t: SinkTarget): string {
    (if t.tls then "https://" else "http://") + (HostHeader(t) + t.path)
  }

  /** The targets a URL can name unambiguously. */
  predicate IsPrintable(t: SinkTarget) {
    t.host != "" && '/' !in t.host && StartsWith(t.path, "/")
    && (t.port == DefaultPort(t.tls) ==> ':' !in t.host)
  }

  lemma ParseOfScheme(tls: bool, rest: string)
    ensures ParseSink((if tls then "https://" else "http://") + rest) == ParseRest(tls, rest)
  {
    var sink := (if tls then "https://" else "http://") + rest;
    if tls {
      assert sink[8..] == rest;
    } else {
      assert sink[4] == ':' && sink[7..] == rest;
    }
  }

  lemma ParseOfDigits(n: Port)
    ensures ParsePort(Digits(n)) == Some(n)
  {
    ValueOfDigits(n);
    assert IsDigit(Digits(n)[0]);
  }

  lemma DigitsHaveNo(n: nat, c: char)
    requires !IsDigit(c)
    ensures c !in Digits(n)
  {
  }

  /** Whatever the input, a successful parse names a host without `/` and an absolute path. */
  lemma ParsedShape(sink: string)
    requires ParseSink(sink).Some?
    ensures ParseSink(sink).value.host != "" && '/' !in ParseSink(sink).value.host
    ensures StartsWith(ParseSink(sink).value.path, "/")
  {
    hide LastIndexOf, IndexOf, ParsePort;
    var tls := StartsWith(sink, "https://");
    var rest := sink[if tls then 8 else 7..];
    assert ParseSink(sink) == ParseRest(tls, rest);
    var i := IndexOf(rest, '/');
    assert '/' !in rest[..i];
  }

  lemma ParseOfAuthority(t: SinkTarget)
    requires t.host != "" && (t.port == DefaultPort(t.tls) ==> ':' !in t.host)
    ensures ParseAuthority(t.tls, HostHeader(t), t.path) == Some(t)
  {
    hide LastIndexOf, Digits, ParsePort;
    var header := HostHeader(t);
    if t.port == DefaultPort(t.tls) {
      assert LastIndexOf(header, ':') == |header|;
      assert header[..|header|] == t.host;
    } else {
      var j := |t.host|;
      DigitsHaveNo(t.port, ':');
      LastIndex(t.host, ':', Digits(t.port));
      ParseOfDigits(t.port);
      assert header[..j] == t.host && header[j + 1..] == Digits(t.port);
    }
  }

  lemma ParseOfPrinted(t: SinkTarget)
    requires '/' !in t.host && StartsWith(t.path, "/")
    ensures ParseSink(PrintSink(t)) == ParseAuthority(t.tls, HostHeader(t), t.path)
  {
    hide IndexOf, Digits, ParseAuthority;
    var header := HostHeader(t);
    ParseOfScheme(t.tls, header + t.path);
    DigitsHaveNo(t.port, '/');
    FirstIndex(header, '/', t.path[1..]);
    assert header + t.path == header + ['/'] + t.path[1..];
    assert (header + t.path)[..|header|] == header && (header + t.path)[|header|..] == t.path;
  }

  /** Parsing undoes printing for exactly the printable targets. */
  lemma PrintThenParse(t: SinkTarget)
    ensures ParseSink(PrintSink(t)) == Some(t) <==> IsPrintable(t)
  {
    if IsPrintable(t) {
      ParseOfPrinted(t);
      ParseOfAuthority(t);
    } else if ParseSink(PrintSink(t)) == Some(t) {
      ParsedShape(PrintSink(t));
      ParseOfPrinted(t);
      BareHostLosesItsColon(t);
    }
  }

  /** With the port elided, the last `:` of the host is taken for a port separator. */
  lemma BareHostLosesItsColon(t: SinkTarget)
    requires t.port == DefaultPort(t.tls) && ':' in t.host
    ensures ParseAuthority(t.tls, HostHeader(t), t.path) != Some(t)
  {
    hide LastIndexOf, ParsePort;
    var j := LastIndexOf(t.host, ':');
    assert j < |t.host|;
    assert |t.host[..j]| < |t.host|;
  }

  /** An accepted sink survives printing, unless its port is the default one after a host with a colon. */
  lemma ParseThenPrint(sink: string)
    requires ParseSink(sink).Some?
    ensures var t := ParseSink(sink).value;
      ParseSink(PrintSink(t)) == Some(t) <==> (t.port == DefaultPort(t.tls) ==> ':' !in t.host)
  {
    ParsedShape(sink);
    PrintThenParse(ParseSink(sink).value);
  }

  /** The exception in `ParseThenPrint` is reachable. */
  lemma ColonHostExample()
    ensures ParseSink("http://a:b:80") == Some(SinkTarget(false, "a:b", 80, "/"))
    ensures ParseSink(PrintSink(SinkTarget(false, "a:b", 80, "/"))) != Some(SinkTarget(false, "a:b", 80, "/"))
  {
    hide LastIndexOf, IndexOf, Value, Digits, PrintSink, ParseSink;
    PrintThenParse(SinkTarget(false, "a:b", 80, "/"));
    assert "http://" + "a:b:80" == "http://a:b:80";
    ParseOfScheme(false, "a:b:80");
    assert IndexOf("a:b:80", '/') == 6;
    LastIndex("a:b", ':', "80");
    assert "a:b" + [':'] + "80" == "a:b:80";
    assert "a:b:80"[..3] == "a:b" && "a:b:80"[4..] == "80";
    EightyIsEighty();
  }

  lemma EightyIsEighty()
    ensures Value("80") == 80
  {
    assert "80"[..1] == "8" && "8"[..0] == "";
  }

  // ----- what a URL says -----

  /** A URL taken apart: scheme, host, the text after the last colon of the authority if it has one, and the rest. */
  predicate IsMadeOf(sink: string, tls: bool, host: string, port: Option<string>, path: string) {
    sink == (if tls then "https://" else "http://") + (host + (if port.Some? then [':'] + port.value else "") + path)
    && (path == "" || path[0] == '/') && '/' !in host
    && (if port.Some? then '/' !in port.value && ':' !in port.value else ':' !in host)
  }

  predicate IsNumeral(digits: string) {
    forall i :: 0 <= i < |digits| ==> '0' <= digits[i] <= '9'
  }

  lemma NumeralIsDigits(s: string)
    ensures IsNumeral(s) <==> All(s, IsDigit)
  {
  }

  /** A port in digits, with or without a plus sign. */
  predicate SaysPort(text: string, n: nat) {
    var digits := if |text| > 1 && text[0] == '+' then text[1..] else text;
    NumeralIsDigits(digits);
    digits != "" && IsNumeral(digits) && Value(digits) == n && n <= 65535
  }

  predicate Says(tls: bool, host: string, port: Option<string>, path: string, t: SinkTarget) {
    host != "" && t.tls == tls && t.host == host && t.path == (if path == "" then "/" else path)
    && match port
       case None => t.port == (if tls then 443 else 80)
       case Some(text) => SaysPort(text, t.port)
  }

  lemma AuthorityApart(tls: bool, host: string, port: Option<string>, path: string)
    requires if port.Some? then ':' !in port.value else ':' !in host
    ensures ParseAuthority(tls, host + (if port.Some? then [':'] + port.value else ""), path)
         == var p := if port.Some? then ParsePort(port.value) else Some(DefaultPort(tls));
            if p.None? || host == "" then None else Some(SinkTarget(tls, host, p.value, path))
  {
    hide LastIndexOf, ParsePort;
    if port.Some? {
      var authority := host + [':'] + port.value;
      LastIndex(host, ':', port.value);
      assert host + ([':'] + port.value) == authority;
      assert authority[..|host|] == host && authority[|host| + 1..] == port.value;
    } else {
      assert host + "" == host && host[..|host|] == host;
      assert LastIndexOf(host, ':') == |host|;
    }
  }

  lemma RestApart(tls: bool, authority: string, path: string)
    requires '/' !in authority && (path == "" || path[0] == '/')
    ensures ParseRest(tls, authority + path) == ParseAuthority(tls, authority, if path == "" then "/" else path)
  {
    hide IndexOf, ParseAuthority;
    if path == "" {
      assert authority + path == authority;
    } else {
      assert authority + path == authority + ['/'] + path[1..];
      FirstIndex(authority, '/', path[1..]);
      assert (authority + path)[..|authority|] == authority && (authority + path)[|authority|..] == path;
    }
  }

  lemma ParseOfParts(sink: string, tls: bool, host: string, port: Option<string>, path: string, t: SinkTarget)
    requires IsMadeOf(sink, tls, host, port, path)
    ensures ParseSink(sink) == Some(t) <==> Says(tls, host, port, path, t)
  {
    var authority := host + (if port.Some? then [':'] + port.value else "");
    ParseOfScheme(tls, authority + path);
    RestApart(tls, authority, path);
    AuthorityApart(tls, host, port, if path == "" then "/" else path);
    assert sink == (if tls then "https://" else "http://") + (authority + path);
    hide ParseSink, ParseRest, ParseAuthority, SaysPort, ParsePort, IsMadeOf;
    if port.Some? {
      PortIsSaid(port.value, t.port);
    }
  }

  lemma PortIsSaid(text: string, n: Port)
    ensures ParsePort(text) == Some(n) <==> SaysPort(text, n)
  {
    NumeralIsDigits(if |text| > 1 && text[0] == '+' then text[1..] else text);
    hide Value, IsNumeral, All;
  }

  lemma AuthorityComesApart(authority: string) returns (host: string, port: Option<string>)
    requires '/' !in authority
    ensures authority == host + (if port.Some? then [':'] + port.value else "") && '/' !in host
    ensures if port.Some? then '/' !in port.value && ':' !in port.value else ':' !in host
  {
    hide LastIndexOf;
    var j := LastIndexOf(authority, ':');
    host := authority[..j];
    port := if j < |authority| then Some(authority[j + 1..]) else None;
  }

  /** Every URL of the two schemes comes apart in this way. */
  lemma ComesApart(sink: string, tls: bool) returns (host: string, port: Option<string>, path: string)
    requires StartsWith(sink, if tls then "https://" else "http://")
    ensures IsMadeOf(sink, tls, host, port, path)
  {
    hide IndexOf;
    var rest := AfterPrefix(sink, if tls then "https://" else "http://");
    var i := IndexOf(rest, '/');
    path := rest[i..];
    host, port := AuthorityComesApart(rest[..i]);
    assert rest == host + (if port.Some? then [':'] + port.value else "") + path;
  }

  lemma AfterPrefix(s: string, prefix: string) returns (rest: string)
    requires StartsWith(s, prefix)
    ensures s == prefix + rest
  {
    rest := s[|prefix|..];
  }

  /**
   What is parsed is what the URL says: a sink is accepted, as this target, if and only if it has a
   known scheme, a host, a readable port or none, where none means 443 for https and 80 for http, and
   a path or none, where none means `/`.
   */
  lemma ParsedIffSaid(sink: string, t: SinkTarget)
    ensures ParseSink(sink) == Some(t)
       <==> exists host, port, path :: IsMadeOf(sink, t.tls, host, port, path) && Says(t.tls, host, port, path, t)
  {
    hide ParseSink, IsMadeOf, Says;
    if ParseSink(sink) == Some(t) {
      SchemeIsKnown(sink);
      var host, port, path := ComesApart(sink, t.tls);
      ParseOfParts(sink, t.tls, host, port, path, t);
    }
    forall host, port, path | IsMadeOf(sink, t.tls, host, port, path) && Says(t.tls, host, port, path, t)
      ensures ParseSink(sink) == Some(t)
    {
      ParseOfParts(sink, t.tls, host, port, path, t);
    }
  }

  lemma SchemeIsKnown(sink: string)
    requires ParseSink(sink).Some?
    ensures StartsWith(sink, if ParseSink(sink).value.tls then "https://" else "http://")
  {
    hide IndexOf, LastIndexOf, ParsePort;
  }
}
