/** The URL parser of src/ipdetect.c and the Host header printed from what it returns. */
module Url {
  import opened Text
  import opened Types

  const DEFAULT_PORT := 80

  datatype Target = Target(host: string, port: int, path: string)

  /** What one stage of the parser reads, and the text it leaves to the next. */
  datatype Piece<T> = Piece(value: T, rest: string)

  predicate IsAlpha(c: char) {
    'a' <= c <= 'z' || 'A' <= c <= 'Z'
  }

  predicate IsDigit(c: char) {
    '0' <= c <= '9'
  }

  predicate InScheme(c: char) {
    IsAlpha(c) || IsDigit(c) || c == '+' || c == '-' || c == '.'
  }

  predicate InHost(c: char) {
    c != '/' && c != ':'
  }

  predicate InBrackets(c: char) {
    c != ']'
  }

  /** The length of the longest prefix whose characters all satisfy `p`. */
  function Span(s: string, p: char -> bool): (n: nat)
    ensures n <= |s| && (forall i | 0 <= i < n :: p(s[i])) && (n < |s| ==> !p(s[n]))
  {
    if s != "" && p(s[0]) then 1 + Span(s[1..], p) else 0
  }

  lemma {:induction false} SpanIs(s: string, p: char -> bool, n: nat)
    requires n <= |s| && (forall i | 0 <= i < n :: p(s[i])) && (n < |s| ==> !p(s[n]))
    ensures Span(s, p) == n
  {
    if n > 0 {
      SpanIs(s[1..], p, n - 1);
    }
  }

  predicate Digits(s: string) {
    forall i | 0 <= i < |s| :: IsDigit(s[i])
  }

  /** `strtol` of a run of digits; a saturated result is out of the range of ports like the number itself. */
  function Value(digits: string): nat
    requires Digits(digits)
  {
    if digits == "" then 0
    else Value(digits[..|digits| - 1]) * 10 + (digits[|digits| - 1] as int - '0' as int)
  }

  /** The value is the decimal one. */
  lemma ValueIsDecimal(s: string, d: char)
    requires Digits(s) && IsDigit(d)
    ensures Value("") == 0 && Digits(s + [d]) && Value(s + [d]) == 10 * Value(s) + (d as int - 48)
  {
    assert (s + [d])[..|s|] == s;
  }

  /** `%d` of a number that is not negative. */
  function Decimal(n: nat): (s: string)
    ensures s != "" && Digits(s)
  {
    (if n < 10 then "" else Decimal(n / 10)) + [('0' as int + n % 10) as char]
  }

  lemma {:induction false} ValueOfDecimal(n: nat)
    ensures Value(Decimal(n)) == n
  {
    var s := Decimal(n);
    if n >= 10 {
      ValueOfDecimal(n / 10);
      assert s[..|s| - 1] == Decimal(n / 10);
    } else {
      assert s[..|s| - 1] == "";
    }
  }

  lemma Shorter(n: nat)
    requires n <= 65535
    ensures |Decimal(n)| <= 5
  {
    assert |Decimal(n / 10000)| == 1;
    assert |Decimal(n / 1000)| <= 2;
    assert |Decimal(n / 100)| <= 3;
    assert |Decimal(n / 10)| <= 4;
  }

  // ---- the parser as a function ------------------------------------------------------------------

  predicate HasScheme(url: string) {
    url != "" && IsAlpha(url[0]) && "://" <= url[Span(url, InScheme)..]
  }

  const HTTP := "http://"

  function AfterScheme(url: string): Option<string> {
    if !HasScheme(url) then Some(url)
    else if HTTP <= url then Some(url[|HTTP|..])
    else None
  }

  function ParseHost(s: string): Option<Piece<string>> {
    if s != "" && s[0] == '[' then
      var n := Span(s[1..], InBrackets);
      if n == 0 || n == |s| - 1 then None else Some(Piece(s[1..n + 1], s[n + 2..]))
    else
      var n := Span(s, InHost);
      if n == 0 then None else Some(Piece(s[..n], s[n..]))
  }

  function ParsePort(s: string): Option<Piece<int>> {
    if s != "" && s[0] == ':' then
      var n := Span(s[1..], IsDigit);
      if n == 0 then None
      else
        var port: int := Value(s[1..n + 1]);
        if 1 <= port <= 65535 then Some(Piece(port, s[n + 1..])) else None
    else Some(Piece(DEFAULT_PORT, s))
  }

  function ParsePath(s: string): Option<string> {
    if s == "" then Some("/")
    else if s[0] == '/' then Some(s)
    else None
  }

  function ParseAuthority(s: string): Option<Target> {
    match ParseHost(s)
    case None => None
    case Some(host) =>
      match ParsePort(host.rest)
      case None => None
      case Some(port) =>
        match ParsePath(port.rest)
        case None => None
        case Some(path) => Some(Target(host.value, port.value, path))
  }

  predicate Fits(t: Target, hostSize: nat, pathSize: nat) {
    |t.host| < hostSize && |t.path| < pathSize
  }

  function Parse(url: string, hostSize: nat, pathSize: nat): Option<Target> {
    match AfterScheme(url)
    case None => None
    case Some(authority) =>
      match ParseAuthority(authority)
      case None => None
      case Some(t) => if Fits(t, hostSize, pathSize) then Some(t) else None
  }

  // ---- the parser as written ---------------------------------------------------------------------

  method HasUrlScheme(url: string) returns (has: bool)
    requires url != ""
    ensures has == HasScheme(url)
  {
    if !IsAlpha(url[0]) {
      return false;
    }
    var p := 1;
    while p < |url| && InScheme(url[p])
      invariant 1 <= p <= |url|
      invariant forall i | 0 <= i < p :: InScheme(url[i])
    {
      p := p + 1;
    }
    SpanIs(url, InScheme, p);
    has := "://" <= url[p..];
  }

  /** Skips the scheme; only `http` is supported, and a URL without one is taken for `http`. */
  method SkipScheme(url: string) returns (err: int, p: nat, ghost rest: string)
    requires url != ""
    ensures err == 0 || err == -1
    ensures err == 0 ==> p <= |url| && rest == url[p..]
    ensures AfterScheme(url) == if err == 0 then Some(rest) else None
  {
    err, p, rest := -1, 0, url;
    var has := HasUrlScheme(url);
    if has {
      if HTTP <= url {
        p := |HTTP|;
        rest := url[p..];
      } else {
        return;
      }
    }
    err := 0;
  }

  /** The text up to the closing bracket, which must be there. */
  method FindBracketed(url: string, start: nat, ghost s: string)
    returns (err: int, host: string, p: nat, ghost rest: string)
    requires start < |url| && url[start] == '[' && s == url[start..]
    ensures err == 0 || err == -1
    ensures err == 0 ==> p <= |url| && rest == url[p..]
    ensures '\0' !in url ==> '\0' !in host
    ensures ParseHost(s) == if err == 0 && host != "" then Some(Piece(host, rest)) else None
  {
    err, host, p, rest := 0, "", start, s;
    var hostStart := start + 1;
    var hostEnd := hostStart;
    while hostEnd < |url| && url[hostEnd] != ']'
      invariant hostStart <= hostEnd <= |url|
      invariant forall i | hostStart <= i < hostEnd :: InBrackets(url[i])
    {
      hostEnd := hostEnd + 1;
    }
    assert s[1..] == url[hostStart..];
    SpanIs(url[hostStart..], InBrackets, hostEnd - hostStart);
    if hostEnd == |url| {
      return -1, "", p, rest;
    }
    p := hostEnd + 1;
    assert s[1..hostEnd - hostStart + 1] == url[hostStart..hostEnd] && s[hostEnd - hostStart + 2..] == url[p..];
    host, rest := url[hostStart..hostEnd], url[p..];
  }

  /** Finds the host, bracketed or not. */
  method FindHost(url: string, start: nat, ghost s: string)
    returns (err: int, host: string, p: nat, ghost rest: string)
    requires start <= |url| && s == url[start..]
    ensures err == 0 || err == -1
    ensures err == 0 ==> p <= |url| && rest == url[p..]
    ensures '\0' !in url ==> '\0' !in host
    ensures ParseHost(s) == if err == 0 && host != "" then Some(Piece(host, rest)) else None
  {
    if start < |url| && url[start] == '[' {
      err, host, p, rest := FindBracketed(url, start, s);
      return;
    }
    var hostEnd := start;
    while hostEnd < |url| && url[hostEnd] != '/' && url[hostEnd] != ':'
      invariant start <= hostEnd <= |url|
      invariant forall i | start <= i < hostEnd :: InHost(url[i])
    {
      hostEnd := hostEnd + 1;
    }
    SpanIs(s, InHost, hostEnd - start);
    assert s[..hostEnd - start] == url[start..hostEnd];
    err, host, p, rest := 0, url[start..hostEnd], hostEnd, url[hostEnd..];
  }

  /** Reads the port, if there is one. */
  method ReadPort(url: string, start: nat, ghost s: string) returns (err: int, port: int, p: nat, ghost rest: string)
    requires start <= |url| && s == url[start..]
    ensures err == 0 || err == -1
    ensures err == 0 ==> p <= |url| && rest == url[p..]
    ensures ParsePort(s) == if err == 0 then Some(Piece(port, rest)) else None
  {
    err, port, p, rest := -1, 0, start, s;
    if p < |url| && url[p] == ':' {
      p := p + 1;
      var portStart := p;
      while p < |url| && IsDigit(url[p])
        invariant portStart <= p <= |url|
        invariant forall i | portStart <= i < p :: IsDigit(url[i])
      {
        p := p + 1;
      }
      assert s[1..] == url[portStart..];
      SpanIs(url[portStart..], IsDigit, p - portStart);
      if p == portStart {
        return;
      }
      assert s[1..p - portStart + 1] == url[portStart..p];
      var number := Value(url[portStart..p]);
      if number < 1 || number > 65535 {
        return;
      }
      port := number;
    } else {
      port := DEFAULT_PORT;
    }
    err, rest := 0, url[p..];
  }

  /** Whatever follows is the path. */
  method ReadPath(url: string, p: nat, ghost s: string) returns (err: int, path: string)
    requires p <= |url| && s == url[p..]
    ensures err == 0 || err == -1
    ensures ParsePath(s) == if err == 0 then Some(path) else None
    ensures '\0' !in url ==> '\0' !in path
  {
    if p < |url| && url[p] == '/' {
      return 0, url[p..];
    } else if p == |url| {
      return 0, "/";
    }
    return -1, "";
  }

  lemma EmptyRejected(hostSize: nat, pathSize: nat)
    ensures Parse("", hostSize, pathSize) == None
  {
    assert AfterScheme("") == Some("");
  }

  /** `parse_url_host_path`: walks the URL once and writes the caller's buffers. */
  method ParseUrlHostPath(url: string, host: array<char>, path: array<char>) returns (err: int, port: int)
    requires host != path && '\0' !in url
    modifies host, path
    ensures match Parse(url, host.Length, path.Length)
            case Some(t) => err == 0 && port == t.port && Holds(host, t.host) && Holds(path, t.path)
            case None => err == -1
  {
    hide AfterScheme, ParseHost, ParsePort, ParsePath;
    err, port := -1, 0;
    if url == "" {
      EmptyRejected(host.Length, path.Length);
      return;
    }
    var read, p, authority := SkipScheme(url);
    if read != 0 {
      return;
    }
    var hostText, pathText;
    ghost var afterHost, afterPort;
    read, hostText, p, afterHost := FindHost(url, p, authority);
    if read != 0 {
      return;
    }
    if |hostText| >= host.Length {
      return;
    }
    if hostText == "" {
      return;
    }
    Fill(host, hostText);
    read, port, p, afterPort := ReadPort(url, p, afterHost);
    if read != 0 {
      return;
    }
    read, pathText := ReadPath(url, p, afterPort);
    if read != 0 {
      return;
    }
    if |pathText| >= path.Length {
      return;
    }
    Fill(path, pathText);
    err := 0;
  }

  // ---- what the parser accepts -------------------------------------------------------------------

  ghost predicate HostWritten(text: string, host: string) {
    && host != ""
    && (if text != "" && text[0] == '[' then text == "[" + host + "]" && ']' !in host
        else text == host && ':' !in host && '/' !in host)
  }

  ghost predicate PortWritten(text: string, port: int) {
    if text == "" then port == 80
    else
      && |text| > 1 && text[0] == ':' && (forall i | 1 <= i < |text| :: 48 <= text[i] as int <= 57)
      && Digits(text[1..])
      && 1 <= port <= 65535 && Value(text[1..]) == port
  }

  ghost predicate PathWritten(text: string, path: string) {
    if text == "" then path == "/" else text[0] == '/' && path == text
  }

  /** A host that is bracketed or free of `:` and `/`, an optional port and an optional path. */
  ghost predicate Written(s: string, host: string, port: string, path: string, t: Target) {
    s == host + (port + path) && HostWritten(host, t.host) && PortWritten(port, t.port) && PathWritten(path, t.path)
  }

  predicate Letter(c: char) {
    65 <= c as int <= 90 || 97 <= c as int <= 122
  }

  predicate SchemeChar(c: char) {
    Letter(c) || 48 <= c as int <= 57 || c == '+' || c == '-' || c == '.'
  }

  /** The URL starts with a scheme of `i` characters and `://`. */
  predicate SchemeEndsAt(url: string, i: int) {
    0 < i <= |url| - 3 && Letter(url[0]) && (forall j | 0 <= j < i :: SchemeChar(url[j])) && url[i..i + 3] == "://"
  }

  ghost predicate Schemed(url: string) {
    exists i :: SchemeEndsAt(url, i)
  }

  lemma HasSchemeIffSchemed(url: string)
    ensures HasScheme(url) <==> Schemed(url)
  {
    var n := Span(url, InScheme);
    if HasScheme(url) {
      assert url[n..][..3] == url[n..n + 3];
      assert SchemeEndsAt(url, n);
    }
    if i :| SchemeEndsAt(url, i) {
      assert url[i] == url[i..i + 3][0] == ':';
      assert forall j | 0 <= j < i :: InScheme(url[j]);
      SpanIs(url, InScheme, i);
      assert url[i..][..3] == url[i..i + 3];
    }
  }

  /** The part of a URL after its `http://`, if it has a scheme at all. */
  ghost predicate Authority(url: string, s: string) {
    if Schemed(url) then url == "http://" + s else url == s
  }

  /** The parser accepts exactly the URLs of this form that fit the buffers, and returns their parts. */
  lemma ParseIffWritten(url: string, hostSize: nat, pathSize: nat, t: Target)
    ensures Parse(url, hostSize, pathSize) == Some(t)
       <==> Fits(t, hostSize, pathSize)
            && exists s, host, port, path :: Authority(url, s) && Written(s, host, port, path, t)
  {
    HasSchemeIffSchemed(url);
    if Parse(url, hostSize, pathSize) == Some(t) {
      var s := AfterScheme(url).value;
      var host, port, path := Deconstruct(s, t);
      assert Authority(url, s) && Written(s, host, port, path, t);
    }
    forall s, host, port, path | Authority(url, s) && Written(s, host, port, path, t)
      ensures AfterScheme(url) == Some(s) && ParseAuthority(s) == Some(t)
    {
      Reconstruct(s, host, port, path, t);
    }
  }

  lemma Deconstruct(s: string, t: Target) returns (host: string, port: string, path: string)
    requires ParseAuthority(s) == Some(t)
    ensures Written(s, host, port, path, t)
  {
    var afterHost := ParseHost(s).value.rest;
    host := HostText(s);
    port := PortText(afterHost);
    path := ParsePort(afterHost).value.rest;
  }

  lemma HostText(s: string) returns (text: string)
    requires ParseHost(s).Some?
    ensures HostWritten(text, ParseHost(s).value.value) && s == text + ParseHost(s).value.rest
  {
    var host := ParseHost(s).value.value;
    if s[0] == '[' {
      text := "[" + host + "]";
      assert s[1..][|host|] == ']';
    } else {
      text := host;
      assert forall i | 0 <= i < |host| :: host[i] == s[i] && InHost(s[i]);
    }
  }

  lemma PortText(s: string) returns (text: string)
    requires ParsePort(s).Some?
    ensures PortWritten(text, ParsePort(s).value.value) && s == text + ParsePort(s).value.rest
  {
    text := s[..|s| - |ParsePort(s).value.rest|];
    if text != "" {
      assert text[1..] == s[1..|text|];
    }
  }

  lemma Reconstruct(s: string, host: string, port: string, path: string, t: Target)
    requires Written(s, host, port, path, t)
    ensures ParseAuthority(s) == Some(t)
  {
    HostReads(host, port + path, t.host);
    PortReads(port, path, t.port);
  }

  lemma HostReads(text: string, rest: string, host: string)
    requires HostWritten(text, host) && (rest == "" || !InHost(rest[0]))
    ensures ParseHost(text + rest) == Some(Piece(host, rest))
  {
    var s := text + rest;
    if text[0] == '[' {
      assert s[1..] == host + "]" + rest;
      SpanIs(s[1..], InBrackets, |host|);
      assert s[1..|host| + 1] == host && s[|host| + 2..] == rest;
    } else {
      SpanIs(s, InHost, |host|);
      assert s[..|host|] == host && s[|host|..] == rest;
    }
  }

  lemma PortReads(text: string, rest: string, port: int)
    requires PortWritten(text, port) && (rest == "" || rest[0] == '/')
    ensures ParsePort(text + rest) == Some(Piece(port, rest))
  {
    var s := text + rest;
    if text == "" {
      assert s == rest;
    } else {
      assert s[1..] == text[1..] + rest;
      assert forall i | 0 <= i < |text| - 1 :: s[1..][i] == text[1..][i] && text[1..][i] in text[1..];
      SpanIs(s[1..], IsDigit, |text| - 1);
      assert s[1..|text|] == text[1..];
    }
  }

  /** An accepted URL yields a host, a port in range and an absolute path, all within the buffers. */
  lemma Accepted(url: string, hostSize: nat, pathSize: nat, t: Target)
    requires Parse(url, hostSize, pathSize) == Some(t)
    ensures 0 < |t.host| < hostSize && 1 <= t.port <= 65535 && 0 < |t.path| < pathSize && t.path[0] == '/'
  {
    var host, port, path := Deconstruct(AfterScheme(url).value, t);
  }

  // ---- the Host header ---------------------------------------------------------------------------

  const HEADER_SIZE := 288

  function HostHeader(host: string, port: nat, isIpv6: string -> bool): string {
    (if isIpv6(host) then "[" + host + "]" else host) + if port != DEFAULT_PORT then ":" + Decimal(port) else ""
  }

  /** `inet_pton` accepts no text with a closing bracket. */
  ghost predicate BracketFree(isIpv6: string -> bool) {
    forall s | isIpv6(s) :: ']' !in s
  }

  /** A host that can stand in a URL without brackets. */
  predicate Plain(host: string) {
    ':' !in host && '/' !in host && (host != "" ==> host[0] != '[')
  }

  function Reprint(t: Target, isIpv6: string -> bool): string
    requires t.port >= 0
  {
    HTTP + HostHeader(t.host, t.port, isIpv6) + t.path
  }

  /** Printing what was parsed and parsing it again gives it back exactly when the host is an IPv6
      literal or can stand without brackets. */
  lemma {:induction false} RoundTrip(url: string, hostSize: nat, pathSize: nat, t: Target, isIpv6: string -> bool)
    requires Parse(url, hostSize, pathSize) == Some(t) && BracketFree(isIpv6)
    ensures t.port >= 0
    ensures Parse(Reprint(t, isIpv6), hostSize, pathSize) == Some(t) <==> isIpv6(t.host) || Plain(t.host)
  {
    hide HasScheme, ParseAuthority;
    Accepted(url, hostSize, pathSize, t);
    var s := HostHeader(t.host, t.port, isIpv6) + t.path;
    assert Reprint(t, isIpv6) == HTTP + s;
    PrintedScheme(s);
    HeaderReads(t, isIpv6);
  }

  lemma HeaderReads(t: Target, isIpv6: string -> bool)
    requires t.host != "" && 1 <= t.port <= 65535 && t.path != "" && t.path[0] == '/' && BracketFree(isIpv6)
    ensures ParseAuthority(HostHeader(t.host, t.port, isIpv6) + t.path) == Some(t) <==> isIpv6(t.host) || Plain(t.host)
  {
    var host := if isIpv6(t.host) then "[" + t.host + "]" else t.host;
    var port := if t.port != DEFAULT_PORT then ":" + Decimal(t.port) else "";
    var s := host + (port + t.path);
    assert HostHeader(t.host, t.port, isIpv6) + t.path == s;
    if isIpv6(t.host) || Plain(t.host) {
      PrintedPort(t.port, port);
      assert Written(s, host, port, t.path, t);
      Reconstruct(s, host, port, t.path, t);
    } else {
      Garbled(t.host, port + t.path);
    }
  }

  lemma PrintedPort(port: int, text: string)
    requires 1 <= port <= 65535 && text == if port != DEFAULT_PORT then ":" + Decimal(port) else ""
    ensures PortWritten(text, port)
  {
    ValueOfDecimal(port);
    assert text != "" ==> text[1..] == Decimal(port);
  }

  lemma PrintedScheme(rest: string)
    ensures HasScheme(HTTP + rest) && AfterScheme(HTTP + rest) == Some(rest)
  {
    var url := HTTP + rest;
    assert url[..7] == "http://";
    SpanIs(url, InScheme, 4);
    assert url[4..] == "://" + rest;
    assert url[7..] == rest;
  }

  /** A host that cannot stand without brackets is never read back from its bare print. */
  lemma Garbled(host: string, rest: string)
    requires host != "" && !Plain(host) && rest != "" && !InHost(rest[0])
    ensures ParseHost(host + rest).Some? ==> ParseHost(host + rest).value.value != host
  {
    var s := host + rest;
    if host[0] == '[' {
      var n := Span(s[1..], InBrackets);
      if n == |host| && s[1..n + 1] == host {
        AllBrackets(host, s);
      }
    } else {
      var i :| 0 <= i < |host| && !InHost(host[i]);
      assert s[i] == host[i];
    }
  }

  lemma {:induction false} AllBrackets(host: string, s: string)
    requires host != "" && host[0] == '[' && |s| > |host| && s[..|host|] == host && s[1..|host| + 1] == host
    ensures s[|host|] == '['
  {
    var i := 0;
    while i < |host|
      invariant 0 <= i <= |host| && s[i] == '['
    {
      assert s[1..|host| + 1][i] == host[i] == s[..|host|][i];
      i := i + 1;
    }
  }

  /** The parser takes whatever stands between brackets for a host: `a:b` is no IPv6 literal, and is lost. */
  lemma {:induction false} BracketedNonLiteralIsLost(isIpv6: string -> bool)
    requires BracketFree(isIpv6) && !isIpv6("a:b")
    ensures Parse("http://[a:b]/", 128, 256) == Some(Target("a:b", 80, "/"))
    ensures Parse(Reprint(Target("a:b", 80, "/"), isIpv6), 128, 256) != Some(Target("a:b", 80, "/"))
  {
    assert Written("[a:b]/", "[a:b]", "", "/", Target("a:b", 80, "/"));
    ParseWritten("http://[a:b]/", "[a:b]/", "[a:b]", "", "/", Target("a:b", 80, "/"));
    assert "a:b"[1] == ':';
    RoundTrip("http://[a:b]/", 128, 256, Target("a:b", 80, "/"), isIpv6);
  }

  lemma ParseWritten(url: string, s: string, host: string, port: string, path: string, t: Target)
    requires url == HTTP + s && Written(s, host, port, path, t) && Fits(t, 128, 256)
    ensures Parse(url, 128, 256) == Some(t)
  {
    PrintedScheme(s);
    Reconstruct(s, host, port, path, t);
  }

  /** The header always fits its buffer when the host fits its own. */
  lemma HeaderFits(host: string, port: nat, isIpv6: string -> bool)
    requires |host| < 128 && port <= 65535
    ensures |HostHeader(host, port, isIpv6)| < HEADER_SIZE
  {
    Shorter(port);
  }
}
