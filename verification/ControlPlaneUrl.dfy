/**
 The packaging script's normalisation of control-plane URLs, over ASCII text, with the splitting rules of Python's
 urllib. Whether a text is an IPv6 address is a parameter.
 */
module ControlPlaneUrl {
  import opened Wrappers
  import Text

  type IsIpv6 = string -> bool

  // ---- Pieces of text ----

  predicate IsDelimiter(c: char) { c == '/' || c == '?' || c == '#' }

  predicate IsRemoved(c: char) { c == '\t' || c == '\r' || c == '\n' }

  // The position of the first delimiter, or the length when there is none.
  function FirstDelimiter(text: string): (i: nat)
    ensures i <= |text| && (forall k | 0 <= k < i :: !IsDelimiter(text[k])) && (i < |text| ==> IsDelimiter(text[i]))
  {
    if text == "" || IsDelimiter(text[0]) then 0 else 1 + FirstDelimiter(text[1..])
  }

  // What follows the last occurrence of a character, or everything.
  function AfterLast(text: string, c: char): (r: string)
    ensures c !in r && |r| <= |text| && text[|text| - |r|..] == r
  {
    if text == "" || text[|text| - 1] == c then "" else AfterLast(text[..|text| - 1], c) + [text[|text| - 1]]
  }

  lemma {:induction false} AfterLastOfNone(text: string, c: char)
    requires c !in text
    ensures AfterLast(text, c) == text
  {
    if text != "" {
      AfterLastOfNone(text[..|text| - 1], c);
      assert text == text[..|text| - 1] + [text[|text| - 1]];
    }
  }

  function WithoutRemoved(text: string): (r: string)
    ensures forall k | 0 <= k < |r| :: !IsRemoved(r[k]) && r[k] in text
  {
    if text == "" then "" else (if IsRemoved(text[0]) then "" else [text[0]]) + WithoutRemoved(text[1..])
  }

  lemma {:induction false} NothingRemoved(text: string)
    requires forall k | 0 <= k < |text| :: !IsRemoved(text[k])
    ensures WithoutRemoved(text) == text
  {
    if text != "" {
      NothingRemoved(text[1..]);
      assert text == [text[0]] + text[1..];
    }
  }

  function DropControls(text: string): string {
    if text != "" && text[0] <= ' ' then DropControls(text[1..]) else text
  }

  // ---- Ports ----

  predicate IsDecimal(text: string) {
    text != "" && forall k | 0 <= k < |text| :: '0' <= text[k] <= '9'
  }

  function DecimalValue(text: string): (n: nat)
    requires forall k | 0 <= k < |text| :: '0' <= text[k] <= '9'
  {
    if text == "" then 0 else 10 * DecimalValue(text[..|text| - 1]) + (text[|text| - 1] - '0') as int
  }

  function Decimal(n: nat): (text: string)
    ensures IsDecimal(text)
  {
    if n < 10 then ['0' + n as char] else Decimal(n / 10) + ['0' + (n % 10) as char]
  }

  lemma {:induction false} DecimalRoundTrip(n: nat)
    ensures DecimalValue(Decimal(n)) == n
  {
    if n >= 10 {
      DecimalRoundTrip(n / 10);
      assert Decimal(n)[..|Decimal(n)| - 1] == Decimal(n / 10);
    } else {
      assert Decimal(n)[..0] == "";
    }
  }

  // ---- Splitting ----

  predicate IsSchemeChar(c: char) {
    'a' <= c <= 'z' || 'A' <= c <= 'Z' || '0' <= c <= '9' || c == '+' || c == '-' || c == '.'
  }

  // `netloc` is None when there is no "//". `rest` is the path, with query and fragment.
  datatype Split = Split(scheme: string, netloc: Option<string>, rest: string)

  function SplitNetloc(scheme: string, text: string): Split {
    if |text| >= 2 && text[..2] == "//" then
      var after := text[2..];
      var end := FirstDelimiter(after);
      Split(scheme, Some(after[..end]), after[end..])
    else Split(scheme, None, text)
  }

  predicate HasScheme(clean: string) {
    var colon := Text.IndexOf(clean, ':');
    && 0 < colon < |clean| && ('a' <= clean[0] <= 'z' || 'A' <= clean[0] <= 'Z')
    && forall k | 0 <= k < colon :: IsSchemeChar(clean[k])
  }

  function SplitClean(clean: string): Split {
    var colon := Text.IndexOf(clean, ':');
    if HasScheme(clean) then SplitNetloc(Text.Lower(clean[..colon]), clean[colon + 1..]) else SplitNetloc("", clean)
  }

  function SplitUrl(text: string): Split {
    SplitClean(WithoutRemoved(DropControls(text)))
  }

  // The host and the port text of a network location without user information; "" stands for no port.
  datatype HostPort = HostPort(host: string, port: string)

  function AfterColon(text: string): string {
    var colon := Text.IndexOf(text, ':');
    if colon == |text| then "" else text[colon + 1..]
  }

  function SplitHostPort(hostinfo: string): HostPort {
    var open := Text.IndexOf(hostinfo, '[');
    if open < |hostinfo| then
      var bracketed := hostinfo[open + 1..];
      var close := Text.IndexOf(bracketed, ']');
      HostPort(bracketed[..close], if close == |bracketed| then "" else AfterColon(bracketed[close + 1..]))
    else
      HostPort(hostinfo[..Text.IndexOf(hostinfo, ':')], AfterColon(hostinfo))
  }

  // The bracket rules of urlsplit. A host in brackets must be an IPv6 address with nothing around it but a port.
  predicate BracketsAreFine(netloc: string, ipv6: IsIpv6) {
    if '[' !in netloc && ']' !in netloc then true
    else if '[' !in netloc || ']' !in netloc then false
    else BracketedIsFine(AfterLast(netloc, '@'), ipv6)
  }

  predicate BracketedIsFine(hostinfo: string, ipv6: IsIpv6) {
    var open := Text.IndexOf(hostinfo, '[');
    if open == |hostinfo| then ipv6(SplitHostPort(hostinfo).host)
    else
      var bracketed := hostinfo[open + 1..];
      var close := Text.IndexOf(bracketed, ']');
      && open == 0
      && (close + 1 < |bracketed| ==> bracketed[close + 1] == ':')
      && ipv6(bracketed[..close])
  }

  // A user name or a password that is not empty.
  predicate HasUserInfo(netloc: string) {
    var hostinfo := AfterLast(netloc, '@');
    |hostinfo| < |netloc| && netloc[..|netloc| - |hostinfo| - 1] != "" && netloc[..|netloc| - |hostinfo| - 1] != ":"
  }

  // Path, query and fragment may only be a slash and empty marks.
  predicate IsBareRest(rest: string) {
    var hash := Text.IndexOf(rest, '#');
    var beforeHash := rest[..hash];
    var mark := Text.IndexOf(beforeHash, '?');
    && (hash < |rest| ==> hash == |rest| - 1)
    && (mark < |beforeHash| ==> mark == |beforeHash| - 1)
    && (beforeHash[..mark] == "" || beforeHash[..mark] == "/")
  }

  // A host name; its zone, behind a percent sign, keeps its case until the script folds it.
  predicate IsLoopback(host: string) {
    host == "localhost" || host == "127.0.0.1" || host == "::1"
  }

  function HostText(host: string): string {
    if ':' in host then "[" + host + "]" else host
  }

  // The part of normalized_https_url after the split
  function NormalizedParts(split: Split, allowInsecureLoopback: bool, ipv6: IsIpv6): Option<string> {
    if split.netloc.None? || !BracketsAreFine(split.netloc.value, ipv6) then None
    else
      var hostPort := SplitHostPort(AfterLast(split.netloc.value, '@'));
      if HasUserInfo(split.netloc.value) || !IsBareRest(split.rest) then None
      else NormalizedHostPort(split.scheme, hostPort, allowInsecureLoopback)
  }

  predicate IsPort(text: string) {
    text == "" || (IsDecimal(text) && DecimalValue(text) <= 65535)
  }

  function NormalizedHostPort(scheme: string, hostPort: HostPort, allowInsecureLoopback: bool): Option<string> {
    var host := Text.Lower(hostPort.host);
    if !IsPort(hostPort.port) || host == "" then None
    else if !(scheme == "https" || (scheme == "http" && allowInsecureLoopback && IsLoopback(host))) then None
    else
      var port := if hostPort.port == "" then None else Some(DecimalValue(hostPort.port));
      Some(scheme + "://" + HostText(host) + PortText(port))
  }

  function PortText(port: Option<nat>): string {
    if port.None? then "" else ":" + Decimal(port.value)
  }

  // normalized_https_url
  function NormalizedUrl(value: string, allowInsecureLoopback: bool, ipv6: IsIpv6): Option<string> {
    NormalizedParts(SplitUrl(Text.Strip(value, Text.PYTHON_SPACE)), allowInsecureLoopback, ipv6)
  }

  // ---- Normalising twice ----

  // IPv6 addresses contain a colon, and their case does not matter.
  ghost predicate IsIpv6Check(ipv6: IsIpv6) {
    forall text :: ipv6(text) ==> ':' in text && ipv6(Text.Lower(text))
  }

  predicate IsPlain(c: char) { !IsDelimiter(c) && !IsRemoved(c) && c != '@' }

  // What normalisation leaves of a host.
  predicate IsNormalHost(host: string, ipv6: IsIpv6) {
    && Text.Lower(host) == host
    && (forall k | 0 <= k < |host| :: IsPlain(host[k]) && host[k] != ']')
    && (if ':' in host then ipv6(host) else '[' !in host)
  }

  predicate IsWebScheme(scheme: string) {
    scheme == "https" || scheme == "http"
  }

  function WebUrl(scheme: string, body: string): string {
    scheme + "://" + body
  }

  predicate IsPlainBody(body: string) {
    forall k | 0 <= k < |body| :: IsPlain(body[k])
  }

  lemma NothingToCleanIn(scheme: string, body: string)
    requires IsWebScheme(scheme) && IsPlainBody(body)
    ensures WithoutRemoved(DropControls(WebUrl(scheme, body))) == WebUrl(scheme, body)
  {
    var text := WebUrl(scheme, body);
    assert text[0] == 'h';
    forall k | 0 <= k < |text| ensures !IsRemoved(text[k]) {
      if k >= |scheme| + 3 {
        assert text[k] == body[k - |scheme| - 3];
      }
    }
    NothingRemoved(text);
  }

  lemma SchemeOfWebUrl(scheme: string, body: string)
    requires IsWebScheme(scheme)
    ensures var text := WebUrl(scheme, body);
            && Text.IndexOf(text, ':') == |scheme| < |text| && text[..|scheme|] == scheme && text[|scheme| + 1..] == "//" + body
    ensures Text.Lower(scheme) == scheme && forall k | 0 <= k < |scheme| :: IsSchemeChar(scheme[k])
  {
    var text := WebUrl(scheme, body);
    assert forall k | 0 <= k < |scheme| :: text[k] == scheme[k];
    Text.IndexOfIsFirst(text, ':', |scheme|);
  }

  lemma PlainBodyHasNoDelimiter(body: string)
    requires IsPlainBody(body)
    ensures FirstDelimiter(body) == |body| && AfterLast(body, '@') == body
  {
    assert FirstDelimiter(body) < |body| ==> IsPlain(body[FirstDelimiter(body)]);
    AfterLastOfNone(body, '@');
  }

  lemma SplitCleanOf(text: string, scheme: string, body: string)
    requires Text.IndexOf(text, ':') == |scheme| < |text| && text[..|scheme|] == scheme && text[|scheme| + 1..] == "//" + body
    requires scheme != "" && ('a' <= scheme[0] <= 'z' || 'A' <= scheme[0] <= 'Z')
    requires forall k | 0 <= k < |scheme| :: IsSchemeChar(scheme[k])
    ensures SplitClean(text) == SplitNetloc(Text.Lower(scheme), "//" + body)
  {
    assert forall k | 0 <= k < |scheme| :: text[k] == text[..|scheme|][k];
    assert text[0] == scheme[0];
    assert HasScheme(text);
  }

  lemma SplitNetlocOf(scheme: string, body: string)
    requires FirstDelimiter(body) == |body|
    ensures SplitNetloc(scheme, "//" + body) == Split(scheme, Some(body), "")
  {
    var text := "//" + body;
    assert text[..2] == "//";
    assert text[2..] == body;
    assert body[..|body|] == body && body[|body|..] == "";
  }

  lemma SplitOfWebUrl(scheme: string, body: string)
    requires IsWebScheme(scheme) && IsPlainBody(body)
    ensures SplitUrl(WebUrl(scheme, body)) == Split(scheme, Some(body), "")
  {
    NothingToCleanIn(scheme, body);
    SchemeOfWebUrl(scheme, body);
    PlainBodyHasNoDelimiter(body);
    SplitCleanOf(WebUrl(scheme, body), scheme, body);
    SplitNetlocOf(scheme, body);
  }

  lemma AfterColonOfPort(port: Option<nat>)
    ensures AfterColon(PortText(port)) == if port.Some? then Decimal(port.value) else ""
  {
    if port.Some? {
      Text.IndexOfIsFirst(PortText(port), ':', 0);
      assert PortText(port)[1..] == Decimal(port.value);
    }
  }

  // A host in brackets, as its text is taken apart again.
  lemma BracketedParts(host: string, port: Option<nat>)
    requires ']' !in host
    ensures var text := "[" + host + "]" + PortText(port);
            && Text.IndexOf(text, '[') == 0
            && Text.IndexOf(text[1..], ']') == |host| && text[1..][..|host|] == host && text[1..][|host| + 1..] == PortText(port)
  {
    var text := "[" + host + "]" + PortText(port);
    CloseAfterHost(host, PortText(port));
    assert text[1..] == host + "]" + PortText(port);
  }

  lemma CloseAfterHost(host: string, rest: string)
    requires ']' !in host
    ensures var text := host + "]" + rest;
            Text.IndexOf(text, ']') == |host| && text[..|host|] == host && text[|host| + 1..] == rest
  {
    var text := host + "]" + rest;
    forall k | 0 <= k < |host| ensures text[k] != ']' {
      assert text[k] == host[k] && host[k] in host;
    }
    Text.IndexOfIsFirst(text, ']', |host|);
  }

  lemma PortHasNoBrackets(port: Option<nat>)
    ensures forall k | 0 <= k < |PortText(port)| :: PortText(port)[k] != '[' && PortText(port)[k] != ']'
  {
  }

  lemma NamedHasNoBrackets(host: string, port: Option<nat>)
    requires '[' !in host && ']' !in host
    ensures var text := host + PortText(port);
            '[' !in text && ']' !in text && Text.IndexOf(text, '[') == |text|
  {
    PortHasNoBrackets(port);
    var text := host + PortText(port);
    forall k | 0 <= k < |text| ensures text[k] != '[' && text[k] != ']' {
      if k < |host| {
        assert host[k] in host;
      }
    }
    Text.IndexOfIsFirst(text, '[', |text|);
  }

  lemma ColonAfterName(host: string, port: Option<nat>)
    requires ':' !in host
    ensures Text.IndexOf(host + PortText(port), ':') == |host| && (host + PortText(port))[..|host|] == host
  {
    var text := host + PortText(port);
    forall k | 0 <= k < |host| ensures text[k] != ':' {
      assert text[k] == host[k] && host[k] in host;
    }
    assert port.Some? ==> text[|host|] == ':';
    Text.IndexOfIsFirst(text, ':', |host|);
  }

  lemma NamedParts(host: string, port: Option<nat>)
    requires ':' !in host
    ensures var text := host + PortText(port);
            && Text.IndexOf(text, ':') == |host| && text[..|host|] == host
            && AfterColon(text) == if port.Some? then Decimal(port.value) else ""
  {
    ColonAfterName(host, port);
    var text := host + PortText(port);
    assert port.Some? ==> text[|host| + 1..] == Decimal(port.value);
  }

  lemma NormalHostCharacters(host: string, port: Option<nat>, ipv6: IsIpv6)
    requires IsNormalHost(host, ipv6)
    ensures ']' !in host && (':' !in host ==> '[' !in host) && IsPlainBody(HostText(host) + PortText(port))
  {
    var text := HostText(host) + PortText(port);
    forall k | 0 <= k < |text| ensures IsPlain(text[k]) {
      if k < |HostText(host)| {
        assert text[k] == HostText(host)[k];
      } else {
        assert text[k] == PortText(port)[k - |HostText(host)|];
      }
    }
  }

  lemma HostPortOfBracketed(host: string, port: Option<nat>)
    requires ']' !in host
    ensures SplitHostPort("[" + host + "]" + PortText(port)) == HostPort(host, if port.Some? then Decimal(port.value) else "")
  {
    AfterColonOfPort(port);
    BracketedParts(host, port);
  }

  lemma HostPortOfNamed(host: string, port: Option<nat>)
    requires ':' !in host && '[' !in host && ']' !in host
    ensures SplitHostPort(host + PortText(port)) == HostPort(host, if port.Some? then Decimal(port.value) else "")
  {
    NamedHasNoBrackets(host, port);
    NamedParts(host, port);
  }

  lemma HostPortOfText(host: string, port: Option<nat>, ipv6: IsIpv6)
    requires IsNormalHost(host, ipv6)
    ensures SplitHostPort(HostText(host) + PortText(port)) == HostPort(host, if port.Some? then Decimal(port.value) else "")
  {
    NormalHostCharacters(host, port, ipv6);
    if ':' in host {
      HostPortOfBracketed(host, port);
    } else {
      HostPortOfNamed(host, port);
    }
  }

  lemma BracketedTextIsFine(host: string, port: Option<nat>, ipv6: IsIpv6)
    requires ']' !in host && ipv6(host)
    ensures BracketedIsFine("[" + host + "]" + PortText(port), ipv6)
  {
    BracketedParts(host, port);
    var text := "[" + host + "]" + PortText(port);
    assert port.Some? ==> text[1..][|host| + 1..][0] == ':';
  }

  lemma BracketsOfText(host: string, port: Option<nat>, ipv6: IsIpv6)
    requires IsNormalHost(host, ipv6)
    ensures BracketsAreFine(HostText(host) + PortText(port), ipv6)
  {
    NormalHostCharacters(host, port, ipv6);
    var text := HostText(host) + PortText(port);
    if ':' in host {
      BracketedTextIsFine(host, port, ipv6);
      PlainBodyHasNoDelimiter(text);
      assert text[|host| + 1] == ']' && text[0] == '[';
    } else {
      NamedHasNoBrackets(host, port);
    }
  }

  lemma PartsOfBody(scheme: string, body: string, hostPort: HostPort, allowInsecureLoopback: bool, ipv6: IsIpv6)
    requires BracketsAreFine(body, ipv6) && AfterLast(body, '@') == body && SplitHostPort(body) == hostPort
    ensures NormalizedParts(Split(scheme, Some(body), ""), allowInsecureLoopback, ipv6) ==
            NormalizedHostPort(scheme, hostPort, allowInsecureLoopback)
  {
    EmptyRestIsBare();
  }

  lemma PartsOfNormalBody(scheme: string, host: string, port: Option<nat>, allowInsecureLoopback: bool, ipv6: IsIpv6)
    requires scheme == "https" || (scheme == "http" && allowInsecureLoopback && IsLoopback(host))
    requires host != "" && IsNormalHost(host, ipv6) && (port.Some? ==> port.value <= 65535)
    ensures NormalizedParts(Split(scheme, Some(HostText(host) + PortText(port)), ""), allowInsecureLoopback, ipv6) ==
            Some(scheme + "://" + HostText(host) + PortText(port))
  {
    var body := HostText(host) + PortText(port);
    var hostPort := HostPort(host, if port.Some? then Decimal(port.value) else "");
    BracketsOfText(host, port, ipv6);
    NormalHostCharacters(host, port, ipv6);
    PlainBodyHasNoDelimiter(body);
    HostPortOfText(host, port, ipv6);
    PartsOfBody(scheme, body, hostPort, allowInsecureLoopback, ipv6);
    PortOfHostPort(scheme, host, port, allowInsecureLoopback);
  }

  lemma EmptyRestIsBare()
    ensures IsBareRest("")
  {
  }

  lemma WebUrlIsItsParts(scheme: string, host: string, port: Option<nat>)
    ensures WebUrl(scheme, HostText(host) + PortText(port)) == scheme + "://" + HostText(host) + PortText(port)
  {
  }

  lemma PortOfHostPort(scheme: string, host: string, port: Option<nat>, allowInsecureLoopback: bool)
    requires scheme == "https" || (scheme == "http" && allowInsecureLoopback && IsLoopback(host))
    requires host != "" && Text.Lower(host) == host && (port.Some? ==> port.value <= 65535)
    ensures NormalizedHostPort(scheme, HostPort(host, if port.Some? then Decimal(port.value) else ""), allowInsecureLoopback) ==
            Some(scheme + "://" + HostText(host) + PortText(port))
  {
    if port.Some? {
      DecimalRoundTrip(port.value);
    }
  }

  // A URL in normal form is left alone.
  lemma NormalUrlIsKept(scheme: string, host: string, port: Option<nat>, allowInsecureLoopback: bool, ipv6: IsIpv6)
    requires scheme == "https" || (scheme == "http" && allowInsecureLoopback && IsLoopback(host))
    requires host != "" && IsNormalHost(host, ipv6) && (port.Some? ==> port.value <= 65535)
    requires Text.Trimmed(WebUrl(scheme, HostText(host) + PortText(port)), Text.PYTHON_SPACE)
    ensures NormalizedUrl(WebUrl(scheme, HostText(host) + PortText(port)), allowInsecureLoopback, ipv6) ==
            Some(WebUrl(scheme, HostText(host) + PortText(port)))
  {
    var body := HostText(host) + PortText(port);
    NormalHostCharacters(host, port, ipv6);
    TrimmedWebUrl(scheme, body, allowInsecureLoopback, ipv6);
    PartsOfNormalBody(scheme, host, port, allowInsecureLoopback, ipv6);
    WebUrlIsItsParts(scheme, host, port);
  }

  lemma TrimmedWebUrl(scheme: string, body: string, allowInsecureLoopback: bool, ipv6: IsIpv6)
    requires IsWebScheme(scheme) && IsPlainBody(body) && Text.Trimmed(WebUrl(scheme, body), Text.PYTHON_SPACE)
    ensures NormalizedUrl(WebUrl(scheme, body), allowInsecureLoopback, ipv6) ==
            NormalizedParts(Split(scheme, Some(body), ""), allowInsecureLoopback, ipv6)
  {
    Text.StripFixesTrimmed(WebUrl(scheme, body), Text.PYTHON_SPACE);
    SplitOfWebUrl(scheme, body);
  }

  // ---- What normalisation gives, and when it gives it again ----

  lemma PlainNetloc(text: string)
    ensures SplitUrl(text).netloc.Some? ==>
              forall k | 0 <= k < |SplitUrl(text).netloc.value| ::
                !IsDelimiter(SplitUrl(text).netloc.value[k]) && !IsRemoved(SplitUrl(text).netloc.value[k])
  {
  }

  lemma LowerKeepsPlain(text: string)
    requires forall k | 0 <= k < |text| :: IsPlain(text[k]) && text[k] != ']'
    ensures forall k | 0 <= k < |text| :: IsPlain(Text.Lower(text)[k]) && Text.Lower(text)[k] != ']'
    ensures ':' in Text.Lower(text) <==> ':' in text
    ensures '[' in Text.Lower(text) <==> '[' in text
  {
    forall k | 0 <= k < |text|
      ensures Text.Lower(text)[k] == ':' <==> text[k] == ':'
      ensures Text.Lower(text)[k] == '[' <==> text[k] == '['
    {
    }
    if ':' in text {
      var k :| 0 <= k < |text| && text[k] == ':';
      assert Text.Lower(text)[k] == ':';
    }
    if '[' in text {
      var k :| 0 <= k < |text| && text[k] == '[';
      assert Text.Lower(text)[k] == '[';
    }
  }

  lemma HostIsInside(hostinfo: string)
    ensures forall c | c in SplitHostPort(hostinfo).host :: c in hostinfo
    ensures ']' in SplitHostPort(hostinfo).host || ':' in SplitHostPort(hostinfo).host || '[' in SplitHostPort(hostinfo).host ==>
              '[' in hostinfo || ']' in hostinfo
    ensures '[' in hostinfo ==> ']' !in SplitHostPort(hostinfo).host
  {
  }

  lemma BracketedHostIsIpv6(hostinfo: string, ipv6: IsIpv6)
    requires BracketedIsFine(hostinfo, ipv6) && '[' in hostinfo
    ensures ipv6(SplitHostPort(hostinfo).host)
  {
  }

  lemma NamedHostHasNoColon(hostinfo: string)
    requires '[' !in hostinfo
    ensures ':' !in SplitHostPort(hostinfo).host && '[' !in SplitHostPort(hostinfo).host
  {
  }

  lemma HostIsPlain(netloc: string)
    requires forall k | 0 <= k < |netloc| :: !IsDelimiter(netloc[k]) && !IsRemoved(netloc[k])
    ensures forall c | c in SplitHostPort(AfterLast(netloc, '@')).host :: IsPlain(c) && c in netloc
  {
    HostIsInside(AfterLast(netloc, '@'));
  }

  // The host of an acceptable network location, before its case is folded.
  lemma HostOfNetloc(netloc: string, ipv6: IsIpv6)
    requires BracketsAreFine(netloc, ipv6) && IsIpv6Check(ipv6) && !HasUserInfo(netloc)
    requires forall k | 0 <= k < |netloc| :: !IsDelimiter(netloc[k]) && !IsRemoved(netloc[k])
    ensures var host := SplitHostPort(AfterLast(netloc, '@')).host;
            && (forall k | 0 <= k < |host| :: IsPlain(host[k]) && host[k] != ']')
            && (if ':' in host then ipv6(host) else ('[' in host ==> ipv6(host)))
  {
    var hostinfo := AfterLast(netloc, '@');
    UserInfoHasNoBrackets(netloc);
    HostIsPlain(netloc);
    if '[' in netloc {
      BracketedHostIsIpv6(hostinfo, ipv6);
      assert ']' !in SplitHostPort(hostinfo).host by { HostIsInside(hostinfo); }
    } else {
      NamedHostHasNoColon(hostinfo);
    }
  }

  lemma UserInfoHasNoBrackets(netloc: string)
    requires !HasUserInfo(netloc)
    ensures forall c | c in netloc && c != '@' && c != ':' :: c in AfterLast(netloc, '@')
  {
  }

  // What a normalised URL looks like.
  ghost predicate IsNormalUrl(url: string, scheme: string, host: string, port: Option<nat>, allowInsecureLoopback: bool, ipv6: IsIpv6) {
    && (scheme == "https" || (scheme == "http" && allowInsecureLoopback && IsLoopback(host)))
    && host != "" && IsNormalHost(host, ipv6) && (port.Some? ==> port.value <= 65535)
    && url == WebUrl(scheme, HostText(host) + PortText(port))
  }

  lemma FoldedHostIsNormal(host: string, ipv6: IsIpv6)
    requires IsIpv6Check(ipv6)
    requires forall k | 0 <= k < |host| :: IsPlain(host[k]) && host[k] != ']'
    requires if ':' in host then ipv6(host) else ('[' in host ==> ipv6(host))
    ensures IsNormalHost(Text.Lower(host), ipv6)
  {
    LowerKeepsPlain(host);
    Text.LowerIsIdempotent(host);
  }

  lemma NormalizedHostPortForm(scheme: string, hostPort: HostPort, allowInsecureLoopback: bool, ipv6: IsIpv6)
    requires NormalizedHostPort(scheme, hostPort, allowInsecureLoopback).Some? && IsNormalHost(Text.Lower(hostPort.host), ipv6)
    ensures exists host, port ::
              IsNormalUrl(NormalizedHostPort(scheme, hostPort, allowInsecureLoopback).value, scheme, host, port,
                          allowInsecureLoopback, ipv6)
  {
    var host, port := Text.Lower(hostPort.host), if hostPort.port == "" then None else Some(DecimalValue(hostPort.port));
    WebUrlIsItsParts(scheme, host, port);
    assert IsNormalUrl(NormalizedHostPort(scheme, hostPort, allowInsecureLoopback).value, scheme, host, port,
                       allowInsecureLoopback, ipv6);
  }

  lemma NormalizedForm(value: string, allowInsecureLoopback: bool, ipv6: IsIpv6)
    requires IsIpv6Check(ipv6) && NormalizedUrl(value, allowInsecureLoopback, ipv6).Some?
    ensures exists scheme, host, port ::
              IsNormalUrl(NormalizedUrl(value, allowInsecureLoopback, ipv6).value, scheme, host, port, allowInsecureLoopback, ipv6)
  {
    var text := Text.Strip(value, Text.PYTHON_SPACE);
    var netloc := SplitUrl(text).netloc.value;
    PlainNetloc(text);
    HostOfNetloc(netloc, ipv6);
    var hostPort := SplitHostPort(AfterLast(netloc, '@'));
    FoldedHostIsNormal(hostPort.host, ipv6);
    NormalizedHostPortForm(SplitUrl(text).scheme, hostPort, allowInsecureLoopback, ipv6);
  }

  lemma {:induction false} StripRightOfJoined(first: string, second: string, space: set<char>)
    requires first != "" && first[|first| - 1] !in space
    ensures Text.StripRight(first + second, space) == first + Text.StripRight(second, space)
    decreases |second|
  {
    if second == "" {
      assert first + second == first;
    } else if second[|second| - 1] in space {
      StripRightOfJoined(first, second[..|second| - 1], space);
      assert (first + second)[..|first + second| - 1] == first + second[..|second| - 1];
    }
  }

  lemma LettersAreNoSpace()
    ensures 'h' !in Text.PYTHON_SPACE && '/' !in Text.PYTHON_SPACE && ']' !in Text.PYTHON_SPACE
    ensures 't' !in Text.PYTHON_SPACE && forall c | '0' <= c <= '9' :: c !in Text.PYTHON_SPACE
  {
  }

  lemma StripOfWebUrl(scheme: string, body: string)
    requires IsWebScheme(scheme)
    ensures Text.Strip(WebUrl(scheme, body), Text.PYTHON_SPACE) == WebUrl(scheme, Text.StripRight(body, Text.PYTHON_SPACE))
  {
    var first := scheme + "://";
    LettersAreNoSpace();
    StripRightOfJoined(first, body, Text.PYTHON_SPACE);
    assert WebUrl(scheme, body) == first + body;
    assert Text.StripLeft(first + body, Text.PYTHON_SPACE) == first + body;
  }

  lemma BareSchemeIsRefused(scheme: string, allowInsecureLoopback: bool, ipv6: IsIpv6)
    requires IsWebScheme(scheme)
    ensures NormalizedUrl(WebUrl(scheme, ""), allowInsecureLoopback, ipv6) == None
  {
    assert Text.StripRight("", Text.PYTHON_SPACE) == "";
    StripOfWebUrl(scheme, "");
    SplitOfWebUrl(scheme, "");
    assert AfterLast("", '@') == "" && SplitHostPort("").host == "";
  }

  lemma PrefixOfNamedHostIsNormal(host: string, n: nat, ipv6: IsIpv6)
    requires IsNormalHost(host, ipv6) && ':' !in host && n <= |host|
    ensures IsNormalHost(host[..n], ipv6) && ':' !in host[..n]
  {
    assert forall k | 0 <= k < n :: Text.Lower(host)[k] == Text.Lower(host[..n])[k];
  }

  lemma PortEndsUrl(scheme: string, host: string, port: nat)
    requires IsWebScheme(scheme)
    ensures Text.Trimmed(WebUrl(scheme, HostText(host) + PortText(Some(port))), Text.PYTHON_SPACE)
  {
    LettersAreNoSpace();
    var url := WebUrl(scheme, HostText(host) + PortText(Some(port)));
    assert url[|url| - 1] == Decimal(port)[|Decimal(port)| - 1] && url[0] == 'h';
  }

  lemma BracketEndsUrl(scheme: string, host: string)
    requires IsWebScheme(scheme) && ':' in host
    ensures Text.Trimmed(WebUrl(scheme, HostText(host) + PortText(None)), Text.PYTHON_SPACE)
  {
    LettersAreNoSpace();
    var url := WebUrl(scheme, HostText(host) + PortText(None));
    assert url[|url| - 1] == ']' && url[0] == 'h';
  }

  // Only a host name without a port can end in white space.
  lemma UntrimmedUrlEndsInName(scheme: string, host: string, port: Option<nat>)
    requires IsWebScheme(scheme) && host != ""
    requires !Text.Trimmed(WebUrl(scheme, HostText(host) + PortText(port)), Text.PYTHON_SPACE)
    ensures port.None? && ':' !in host && HostText(host) + PortText(port) == host && host[|host| - 1] in Text.PYTHON_SPACE
  {
    LettersAreNoSpace();
    if port.Some? {
      PortEndsUrl(scheme, host, port.value);
    }
    if ':' in host {
      BracketEndsUrl(scheme, host);
    }
    assert WebUrl(scheme, host)[0] == 'h' && WebUrl(scheme, host)[|WebUrl(scheme, host)| - 1] == host[|host| - 1];
  }

  lemma UntrimmedUrlIsNotKept(scheme: string, host: string, allowInsecureLoopback: bool, ipv6: IsIpv6)
    requires scheme == "https" && host != "" && IsNormalHost(host, ipv6) && ':' !in host && host[|host| - 1] in Text.PYTHON_SPACE
    ensures NormalizedUrl(WebUrl(scheme, host), allowInsecureLoopback, ipv6) != Some(WebUrl(scheme, host))
  {
    var url, shorter := WebUrl(scheme, host), Text.StripRight(host, Text.PYTHON_SPACE);
    StripOfWebUrl(scheme, host);
    Text.StripIsIdempotent(url, Text.PYTHON_SPACE);
    Text.StripRightIsPrefix(host, Text.PYTHON_SPACE);
    assert NormalizedUrl(url, allowInsecureLoopback, ipv6) == NormalizedUrl(WebUrl(scheme, shorter), allowInsecureLoopback, ipv6);
    assert |shorter| < |host|;
    if shorter == "" {
      BareSchemeIsRefused(scheme, allowInsecureLoopback, ipv6);
    } else {
      PrefixOfNamedHostIsNormal(host, |shorter|, ipv6);
      Text.StripGivesTrimmed(url, Text.PYTHON_SPACE);
      assert HostText(shorter) + PortText(None) == shorter;
      NormalUrlIsKept(scheme, shorter, None, allowInsecureLoopback, ipv6);
    }
  }

  lemma LoopbackEndsPlainly(host: string)
    requires IsLoopback(host)
    ensures host[|host| - 1] !in Text.PYTHON_SPACE
  {
    LettersAreNoSpace();
  }

  lemma NormalUrlIsKeptIffTrimmed(
    url: string, scheme: string, host: string, port: Option<nat>, allowInsecureLoopback: bool, ipv6: IsIpv6)
    requires IsNormalUrl(url, scheme, host, port, allowInsecureLoopback, ipv6)
    ensures NormalizedUrl(url, allowInsecureLoopback, ipv6) == Some(url) <==> Text.Trimmed(url, Text.PYTHON_SPACE)
  {
    if Text.Trimmed(url, Text.PYTHON_SPACE) {
      NormalUrlIsKept(scheme, host, port, allowInsecureLoopback, ipv6);
    } else {
      UntrimmedUrlEndsInName(scheme, host, port);
      if IsLoopback(host) {
        LoopbackEndsPlainly(host);
      }
      UntrimmedUrlIsNotKept(scheme, host, allowInsecureLoopback, ipv6);
    }
  }

  // The URL names no port, and its host name has white space at its end.
  predicate HostEndsInSpace(value: string) {
    var netloc := SplitUrl(Text.Strip(value, Text.PYTHON_SPACE)).netloc;
    netloc.Some? && EndsInSpace(SplitHostPort(AfterLast(netloc.value, '@')))
  }

  predicate EndsInSpace(hostPort: HostPort) {
    var host := hostPort.host;
    hostPort.port == "" && host != "" && ':' !in host && host[|host| - 1] in Text.PYTHON_SPACE
  }

  lemma LowerKeepsColon(host: string)
    ensures ':' in Text.Lower(host) <==> ':' in host
  {
    forall k | 0 <= k < |host| ensures Text.Lower(host)[k] == ':' <==> host[k] == ':' {}
    if ':' in host {
      var k :| 0 <= k < |host| && host[k] == ':';
      assert Text.Lower(host)[k] == ':';
    }
  }

  lemma NameEndsUrl(scheme: string, host: string)
    requires host != "" && ':' !in host
    ensures var url := WebUrl(scheme, HostText(host) + PortText(None)); url != "" && url[|url| - 1] == host[|host| - 1]
  {
    assert HostText(host) + PortText(None) == host;
  }

  lemma NormalizedHostPortIsTrimmedIff(scheme: string, hostPort: HostPort, allowInsecureLoopback: bool)
    requires NormalizedHostPort(scheme, hostPort, allowInsecureLoopback).Some?
    ensures Text.Trimmed(NormalizedHostPort(scheme, hostPort, allowInsecureLoopback).value, Text.PYTHON_SPACE) <==>
            !EndsInSpace(hostPort)
  {
    var host, port := Text.Lower(hostPort.host), if hostPort.port == "" then None else Some(DecimalValue(hostPort.port));
    WebUrlIsItsParts(scheme, host, port);
    LowerKeepsColon(hostPort.host);
    Text.LowerKeepsSpace(hostPort.host[|host| - 1]);
    if !Text.Trimmed(WebUrl(scheme, HostText(host) + PortText(port)), Text.PYTHON_SPACE) {
      UntrimmedUrlEndsInName(scheme, host, port);
    } else if EndsInSpace(hostPort) {
      NameEndsUrl(scheme, host);
    }
  }

  // What normalisation returns ends in white space exactly if the input is such a URL.
  lemma NormalizedUrlIsTrimmedIff(value: string, allowInsecureLoopback: bool, ipv6: IsIpv6)
    requires NormalizedUrl(value, allowInsecureLoopback, ipv6).Some?
    ensures Text.Trimmed(NormalizedUrl(value, allowInsecureLoopback, ipv6).value, Text.PYTHON_SPACE) <==> !HostEndsInSpace(value)
  {
    var split := SplitUrl(Text.Strip(value, Text.PYTHON_SPACE));
    NormalizedHostPortIsTrimmedIff(split.scheme, SplitHostPort(AfterLast(split.netloc.value, '@')), allowInsecureLoopback);
  }

  // Normalising a normalised URL gives it again exactly if the first one named a port or a host without white space at
  // its end.
  lemma NormalizationIsIdempotentIff(value: string, allowInsecureLoopback: bool, ipv6: IsIpv6)
    requires IsIpv6Check(ipv6) && NormalizedUrl(value, allowInsecureLoopback, ipv6).Some?
    ensures var url := NormalizedUrl(value, allowInsecureLoopback, ipv6).value;
            NormalizedUrl(url, allowInsecureLoopback, ipv6) == Some(url) <==> !HostEndsInSpace(value)
  {
    var url := NormalizedUrl(value, allowInsecureLoopback, ipv6).value;
    NormalizedForm(value, allowInsecureLoopback, ipv6);
    var scheme, host, port :| IsNormalUrl(url, scheme, host, port, allowInsecureLoopback, ipv6);
    NormalUrlIsKeptIffTrimmed(url, scheme, host, port, allowInsecureLoopback, ipv6);
    NormalizedUrlIsTrimmedIff(value, allowInsecureLoopback, ipv6);
  }

  lemma SlashEndsNetloc(scheme: string, body: string)
    requires IsPlainBody(body)
    ensures SplitNetloc(scheme, "//" + (body + "/")) == Split(scheme, Some(body), "/")
  {
    var after := body + "/";
    var text := "//" + after;
    assert text[..2] == "//";
    assert text[2..] == after;
    FirstDelimiterIsFirst(after, |body|);
    assert after[..|body|] == body && after[|body|..] == "/";
  }

  lemma {:induction false} FirstDelimiterIsFirst(text: string, i: nat)
    requires i < |text| && IsDelimiter(text[i]) && forall k | 0 <= k < i :: !IsDelimiter(text[k])
    ensures FirstDelimiter(text) == i
  {
    if i > 0 {
      FirstDelimiterIsFirst(text[1..], i - 1);
    }
  }

  lemma NothingToCleanWithSlash(scheme: string, body: string)
    requires IsWebScheme(scheme) && IsPlainBody(body)
    ensures WithoutRemoved(DropControls(WebUrl(scheme, body + "/"))) == WebUrl(scheme, body + "/")
  {
    var text := WebUrl(scheme, body + "/");
    assert text[0] == 'h';
    forall k | 0 <= k < |text| ensures !IsRemoved(text[k]) {
      if |scheme| + 3 <= k < |text| - 1 {
        assert text[k] == body[k - |scheme| - 3];
      }
    }
    NothingRemoved(text);
  }

  lemma SplitWithSlash(scheme: string, body: string)
    requires IsWebScheme(scheme) && IsPlainBody(body)
    ensures SplitUrl(WebUrl(scheme, body + "/")) == Split(scheme, Some(body), "/")
  {
    NothingToCleanWithSlash(scheme, body);
    SchemeOfWebUrl(scheme, body + "/");
    SplitCleanOf(WebUrl(scheme, body + "/"), scheme, body + "/");
    SlashEndsNetloc(scheme, body);
  }

  lemma SlashIsBareRest()
    ensures IsBareRest("/")
  {
    assert Text.IndexOf("/", '#') == 1 && "/"[..1] == "/" && Text.IndexOf("/", '?') == 1;
  }

  // The empty path's slash can follow white space, which then stays in the host: normalising such a URL twice does not
  // give the same as normalising it once.
  lemma SpaceBeforeSlashIsKept(host: string, ipv6: IsIpv6)
    requires IsNormalHost(host, ipv6) && ':' !in host && host != "" && host[|host| - 1] in Text.PYTHON_SPACE
    ensures NormalizedUrl(WebUrl("https", host + "/"), false, ipv6) == Some(WebUrl("https", host))
    ensures NormalizedUrl(WebUrl("https", host), false, ipv6) != Some(WebUrl("https", host))
  {
    LettersAreNoSpace();
    var url := WebUrl("https", host + "/");
    assert url[0] == 'h' && url[|url| - 1] == '/';
    Text.StripFixesTrimmed(url, Text.PYTHON_SPACE);
    assert HostText(host) + PortText(None) == host;
    NormalHostCharacters(host, None, ipv6);
    SplitWithSlash("https", host);
    HostWithSlash(host, ipv6);
    UntrimmedUrlIsNotKept("https", host, false, ipv6);
  }

  lemma HostWithSlash(host: string, ipv6: IsIpv6)
    requires IsNormalHost(host, ipv6) && ':' !in host && host != ""
    ensures NormalizedParts(Split("https", Some(host), "/"), false, ipv6) == Some(WebUrl("https", host))
  {
    assert HostText(host) + PortText(None) == host;
    NormalHostCharacters(host, None, ipv6);
    PlainBodyHasNoDelimiter(host);
    HostPortOfText(host, None, ipv6);
    BracketsOfText(host, None, ipv6);
    SlashIsBareRest();
    PortOfHostPort("https", host, None, false);
    WebUrlIsItsParts("https", host, None);
  }

  // ---- Which URLs are accepted ----

  // A slash and the marks of an empty query and fragment, each of them optional.
  predicate IsEmptyTail(tail: string) {
    || tail == "" || tail == "/" || tail == "?" || tail == "#"
    || tail == "/?" || tail == "/#" || tail == "?#" || tail == "/?#"
  }

  lemma BareRestIsEmptyTail(rest: string)
    requires IsBareRest(rest)
    ensures IsEmptyTail(rest)
  {
    var hash := Text.IndexOf(rest, '#');
    var beforeHash := rest[..hash];
    var mark := Text.IndexOf(beforeHash, '?');
    assert rest == beforeHash + if hash < |rest| then "#" else "";
    assert beforeHash == beforeHash[..mark] + if mark < |beforeHash| then "?" else "";
  }

  // Nothing, or a user name and a password that are both empty.
  predicate IsEmptyUserInfo(text: string) {
    text == "" || text == "@" || text == ":@"
  }

  lemma AfterLastIsBehind(text: string, c: char)
    ensures |AfterLast(text, c)| < |text| ==> text[|text| - |AfterLast(text, c)| - 1] == c
  {
  }

  lemma CutBehind(text: string, i: nat, c: char)
    requires 0 < i <= |text| && text[i - 1] == c
    ensures text == text[..i - 1] + [c] + text[i..]
  {
  }

  lemma UserInfoIsEmpty(netloc: string) returns (userInfo: string)
    requires !HasUserInfo(netloc)
    ensures IsEmptyUserInfo(userInfo) && netloc == userInfo + AfterLast(netloc, '@')
  {
    var before := |netloc| - |AfterLast(netloc, '@')|;
    if before == 0 {
      userInfo := "";
    } else {
      AfterLastIsBehind(netloc, '@');
      CutBehind(netloc, before, '@');
      userInfo := netloc[..before - 1] + "@";
    }
  }

  // Behind the host: nothing, or a colon and the port, which may be empty.
  predicate IsPortPart(text: string, port: string) {
    text == ":" + port || (text == "" && port == "")
  }

  // A name without colon or brackets, or an IPv6 address in brackets.
  predicate IsHostPart(text: string, host: string, ipv6: IsIpv6) {
    || (text == host && ':' !in host && '[' !in host && ']' !in host)
    || (text == "[" + host + "]" && ipv6(host) && ']' !in host)
  }

  lemma AfterColonIsPort(text: string)
    requires text == "" || text[0] == ':'
    ensures IsPortPart(text, AfterColon(text))
  {
    if text != "" {
      Text.IndexOfIsFirst(text, ':', 0);
    }
  }

  lemma HostInfoIsHostAndPort(netloc: string, ipv6: IsIpv6) returns (hostPart: string, portPart: string)
    requires BracketsAreFine(netloc, ipv6) && !HasUserInfo(netloc)
    ensures var hostinfo := AfterLast(netloc, '@');
            && hostinfo == hostPart + portPart
            && IsHostPart(hostPart, SplitHostPort(hostinfo).host, ipv6) && IsPortPart(portPart, SplitHostPort(hostinfo).port)
  {
    var hostinfo := AfterLast(netloc, '@');
    UserInfoHasNoBrackets(netloc);
    assert forall c | c in hostinfo :: c in netloc by {
      assert forall k | 0 <= k < |hostinfo| :: hostinfo[k] == netloc[|netloc| - |hostinfo| + k];
    }
    if '[' in netloc {
      hostPart, portPart := AddressOfInfo(hostinfo, ipv6);
    } else {
      hostPart, portPart := NameOfInfo(hostinfo);
    }
  }

  lemma AddressOfInfo(hostinfo: string, ipv6: IsIpv6) returns (hostPart: string, portPart: string)
    requires '[' in hostinfo && ']' in hostinfo && BracketedIsFine(hostinfo, ipv6)
    ensures hostinfo == hostPart + portPart && hostPart == "[" + SplitHostPort(hostinfo).host + "]"
    ensures ipv6(SplitHostPort(hostinfo).host) && ']' !in SplitHostPort(hostinfo).host
    ensures IsPortPart(portPart, SplitHostPort(hostinfo).port)
  {
    var bracketed := hostinfo[1..];
    var close := Text.IndexOf(bracketed, ']');
    assert Text.IndexOf(hostinfo, '[') == 0;
    assert close < |bracketed| by {
      assert hostinfo == ['['] + bracketed;
      assert ']' in bracketed;
    }
    hostPart, portPart := "[" + bracketed[..close] + "]", bracketed[close + 1..];
    BracketsAround(hostinfo, close);
    AfterColonIsPort(portPart);
  }

  lemma BracketsAround(text: string, close: nat)
    requires text != "" && text[0] == '[' && close < |text[1..]| && text[1..][close] == ']'
    ensures text == "[" + text[1..][..close] + "]" + text[1..][close + 1..]
  {
  }

  lemma NameOfInfo(hostinfo: string) returns (hostPart: string, portPart: string)
    requires '[' !in hostinfo && ']' !in hostinfo
    ensures hostinfo == hostPart + portPart && hostPart == SplitHostPort(hostinfo).host
    ensures ':' !in hostPart && '[' !in hostPart && ']' !in hostPart
    ensures IsPortPart(portPart, SplitHostPort(hostinfo).port)
  {
    var colon := Text.IndexOf(hostinfo, ':');
    hostPart, portPart := hostinfo[..colon], hostinfo[colon..];
    assert hostinfo == hostPart + portPart;
    assert Text.IndexOf(hostinfo, '[') == |hostinfo|;
    assert colon < |hostinfo| ==> portPart == ":" + hostinfo[colon + 1..];
  }

  lemma SplitJoins(clean: string) returns (schemeText: string)
    requires SplitClean(clean).netloc.Some? && SplitClean(clean).scheme != ""
    ensures Text.Lower(schemeText) == SplitClean(clean).scheme
    ensures clean == schemeText + "://" + (SplitClean(clean).netloc.value + SplitClean(clean).rest)
  {
    var colon := Text.IndexOf(clean, ':');
    schemeText := clean[..colon];
    CutAtScheme(clean, colon, FirstDelimiter(clean[colon + 1..][2..]));
  }

  lemma CutAtScheme(clean: string, colon: nat, end: nat)
    requires colon < |clean| && clean[colon] == ':' && |clean[colon + 1..]| >= 2 && clean[colon + 1..][..2] == "//"
    requires end <= |clean[colon + 1..][2..]|
    ensures clean == clean[..colon] + "://" + (clean[colon + 1..][2..][..end] + clean[colon + 1..][2..][end..])
  {
    var text := clean[colon + 1..];
    assert clean[colon + 1] == text[..2][0] && clean[colon + 2] == text[..2][1];
  }

  // The characters of the URL that count: white space around it, control characters before it, tabs and line ends go.
  function Written(value: string): string {
    WithoutRemoved(DropControls(Text.Strip(value, Text.PYTHON_SPACE)))
  }

  datatype UrlParts = UrlParts(schemeText: string, userInfo: string, hostPart: string, portPart: string, tail: string,
                               host: string, port: string)
  {
    function Netloc(): string { userInfo + (hostPart + portPart) }

    function Whole(): string { schemeText + "://" + (Netloc() + tail) }
  }

  // A scheme, a host and at most a port: no user, no path but a slash, no query and no fragment; plain HTTP only where it
  // is asked for, on this machine.
  predicate IsBareUrl(u: UrlParts, allowInsecureLoopback: bool, ipv6: IsIpv6) {
    && (|| Text.Lower(u.schemeText) == "https"
        || (Text.Lower(u.schemeText) == "http" && allowInsecureLoopback && IsLoopback(Text.Lower(u.host))))
    && IsEmptyUserInfo(u.userInfo) && IsEmptyTail(u.tail)
    && u.host != "" && (forall k | 0 <= k < |u.host| :: !IsDelimiter(u.host[k]) && u.host[k] != '@')
    && IsHostPart(u.hostPart, u.host, ipv6) && IsPortPart(u.portPart, u.port) && IsPort(u.port)
  }

  function NormalForm(u: UrlParts): string
    requires IsPort(u.port)
  {
    Text.Lower(u.schemeText) + "://" + HostText(Text.Lower(u.host)) +
    PortText(if u.port == "" then None else Some(DecimalValue(u.port)))
  }

  lemma AcceptedNetlocIsBare(netloc: string, ipv6: IsIpv6) returns (userInfo: string, hostPart: string, portPart: string)
    requires BracketsAreFine(netloc, ipv6) && !HasUserInfo(netloc)
    requires forall k | 0 <= k < |netloc| :: !IsDelimiter(netloc[k]) && !IsRemoved(netloc[k])
    ensures netloc == userInfo + (hostPart + portPart) && IsEmptyUserInfo(userInfo)
    ensures var hostPort := SplitHostPort(AfterLast(netloc, '@'));
            && IsHostPart(hostPart, hostPort.host, ipv6) && IsPortPart(portPart, hostPort.port)
            && (forall k | 0 <= k < |hostPort.host| :: !IsDelimiter(hostPort.host[k]) && hostPort.host[k] != '@')
  {
    userInfo := UserInfoIsEmpty(netloc);
    hostPart, portPart := HostInfoIsHostAndPort(netloc, ipv6);
    HostHasNoDelimiter(netloc, SplitHostPort(AfterLast(netloc, '@')).host);
  }

  lemma HostHasNoDelimiter(netloc: string, host: string)
    requires forall k | 0 <= k < |netloc| :: !IsDelimiter(netloc[k]) && !IsRemoved(netloc[k])
    requires host == SplitHostPort(AfterLast(netloc, '@')).host
    ensures forall k | 0 <= k < |host| :: !IsDelimiter(host[k]) && host[k] != '@'
  {
    HostIsPlain(netloc);
    forall k | 0 <= k < |host| ensures !IsDelimiter(host[k]) && host[k] != '@' {
      assert host[k] in host;
    }
  }

  lemma AcceptedHostPort(scheme: string, host: string, port: string, allowInsecureLoopback: bool)
    requires NormalizedHostPort(scheme, HostPort(host, port), allowInsecureLoopback).Some?
    ensures host != "" && IsPort(port)
    ensures scheme == "https" || (scheme == "http" && allowInsecureLoopback && IsLoopback(Text.Lower(host)))
    ensures NormalizedHostPort(scheme, HostPort(host, port), allowInsecureLoopback) ==
            Some(scheme + "://" + HostText(Text.Lower(host)) + PortText(if port == "" then None else Some(DecimalValue(port))))
  {
  }

  lemma AcceptedUrlIsBare(value: string, allowInsecureLoopback: bool, ipv6: IsIpv6) returns (u: UrlParts)
    requires NormalizedUrl(value, allowInsecureLoopback, ipv6).Some?
    ensures Written(value) == u.Whole()
    ensures IsBareUrl(u, allowInsecureLoopback, ipv6)
    ensures NormalizedUrl(value, allowInsecureLoopback, ipv6) == Some(NormalForm(u))
  {
    var split := SplitUrl(Text.Strip(value, Text.PYTHON_SPACE));
    var netloc := split.netloc.value;
    var hostPort := SplitHostPort(AfterLast(netloc, '@'));
    AcceptedHostPort(split.scheme, hostPort.host, hostPort.port, allowInsecureLoopback);
    var schemeText := SplitJoins(Written(value));
    PlainNetloc(Text.Strip(value, Text.PYTHON_SPACE));
    var userInfo, hostPart, portPart := AcceptedNetlocIsBare(netloc, ipv6);
    BareRestIsEmptyTail(split.rest);
    u := UrlParts(schemeText, userInfo, hostPart, portPart, split.rest, hostPort.host, hostPort.port);
    assert u.Netloc() == netloc;
  }

  lemma EmptyTailIsBareRest(tail: string)
    requires IsEmptyTail(tail)
    ensures IsBareRest(tail) && (tail != "" ==> IsDelimiter(tail[0]))
  {
    var hash := if tail != "" && tail[|tail| - 1] == '#' then |tail| - 1 else |tail|;
    Text.IndexOfIsFirst(tail, '#', hash);
    var beforeHash := tail[..hash];
    var mark := if beforeHash != "" && beforeHash[|beforeHash| - 1] == '?' then |beforeHash| - 1 else |beforeHash|;
    Text.IndexOfIsFirst(beforeHash, '?', mark);
  }

  lemma {:induction false} FirstDelimiterIsBehind(plain: string, tail: string)
    requires forall k | 0 <= k < |plain| :: !IsDelimiter(plain[k])
    requires tail != "" ==> IsDelimiter(tail[0])
    ensures FirstDelimiter(plain + tail) == |plain|
  {
    if plain == "" {
      assert plain + tail == tail;
    } else {
      FirstDelimiterIsBehind(plain[1..], tail);
      assert (plain + tail)[1..] == plain[1..] + tail;
    }
  }

  lemma LastOfJoined(before: string, after: string)
    requires after != ""
    ensures (before + after)[|before + after| - 1] == after[|after| - 1]
    ensures (before + after)[..|before + after| - 1] == before + after[..|after| - 1]
  {
  }

  lemma AfterLastOfLonger(text: string, c: char)
    requires text != "" && text[|text| - 1] != c
    ensures AfterLast(text, c) == AfterLast(text[..|text| - 1], c) + [text[|text| - 1]]
  {
  }

  lemma {:induction false} AfterLastOfJoined(before: string, c: char, after: string)
    requires c !in after && (before == "" || before[|before| - 1] == c)
    ensures AfterLast(before + after, c) == after
    decreases |after|
  {
    if after == "" {
      assert before + after == before;
    } else {
      var shorter, last := after[..|after| - 1], after[|after| - 1];
      AfterLastOfJoined(before, c, shorter);
      assert AfterLast(before + after, c) == AfterLast(before + shorter, c) + [last] by {
        LastOfJoined(before, after);
        AfterLastOfLonger(before + after, c);
      }
      assert shorter + [last] == after;
    }
  }

  lemma WebSchemeHasLetters(schemeText: string)
    requires IsWebScheme(Text.Lower(schemeText))
    ensures schemeText != "" && (forall k | 0 <= k < |schemeText| :: IsSchemeChar(schemeText[k]) && schemeText[k] != ':')
    ensures 'a' <= schemeText[0] <= 'z' || 'A' <= schemeText[0] <= 'Z'
  {
    var lower := Text.Lower(schemeText);
    forall k | 0 <= k < |schemeText|
      ensures 'a' <= schemeText[k] <= 'z' || 'A' <= schemeText[k] <= 'Z'
    {
      assert lower[k] == Text.LowerChar(schemeText[k]) && 'a' <= lower[k] <= 'z';
    }
  }

  lemma ColonAfterScheme(schemeText: string, body: string)
    requires ':' !in schemeText
    ensures var text := WebUrl(schemeText, body);
            && Text.IndexOf(text, ':') == |schemeText| < |text| && text[..|schemeText|] == schemeText
            && text[|schemeText| + 1..] == "//" + body
  {
    var text := WebUrl(schemeText, body);
    assert forall k | 0 <= k < |schemeText| :: text[k] == schemeText[k];
    Text.IndexOfIsFirst(text, ':', |schemeText|);
  }

  lemma SplitNetlocOfJoined(scheme: string, netloc: string, tail: string)
    requires FirstDelimiter(netloc + tail) == |netloc|
    ensures SplitNetloc(scheme, "//" + (netloc + tail)) == Split(scheme, Some(netloc), tail)
  {
    var body := netloc + tail;
    var text := "//" + body;
    assert text[..2] == "//" && text[2..] == body;
    assert body[..|netloc|] == netloc && body[|netloc|..] == tail;
  }

  // A URL made of a scheme, a location and a tail is split into them again.
  lemma SplitOfJoined(schemeText: string, netloc: string, tail: string)
    requires IsWebScheme(Text.Lower(schemeText)) && forall k | 0 <= k < |netloc| :: !IsDelimiter(netloc[k])
    requires tail != "" ==> IsDelimiter(tail[0])
    ensures SplitClean(WebUrl(schemeText, netloc + tail)) == Split(Text.Lower(schemeText), Some(netloc), tail)
  {
    WebSchemeHasLetters(schemeText);
    ColonAfterScheme(schemeText, netloc + tail);
    SplitCleanOf(WebUrl(schemeText, netloc + tail), schemeText, netloc + tail);
    FirstDelimiterIsBehind(netloc, tail);
    SplitNetlocOfJoined(Text.Lower(schemeText), netloc, tail);
  }

  lemma PortPartIsAfterColon(portPart: string, port: string)
    requires IsPortPart(portPart, port)
    ensures AfterColon(portPart) == port && (portPart != "" ==> portPart[0] == ':')
  {
    if portPart != "" {
      Text.IndexOfIsFirst(portPart, ':', 0);
    }
  }

  lemma AddressPieces(host: string, rest: string)
    requires ']' !in host
    ensures var text := "[" + host + "]" + rest;
            && Text.IndexOf(text, '[') == 0 && |host| < |text[1..]|
            && Text.IndexOf(text[1..], ']') == |host| && text[1..][..|host|] == host && text[1..][|host| + 1..] == rest
  {
    var text := "[" + host + "]" + rest;
    CloseAfterHost(host, rest);
    assert text[1..] == host + "]" + rest;
  }

  lemma PiecesAreSplit(text: string, host: string, portPart: string, port: string, ipv6: IsIpv6)
    requires text != "" && Text.IndexOf(text, '[') == 0 && |host| < |text[1..]|
    requires Text.IndexOf(text[1..], ']') == |host| && text[1..][..|host|] == host && text[1..][|host| + 1..] == portPart
    requires ipv6(host) && AfterColon(portPart) == port && (portPart != "" ==> portPart[0] == ':')
    ensures SplitHostPort(text) == HostPort(host, port) && BracketedIsFine(text, ipv6)
  {
    assert |host| + 1 < |text[1..]| ==> text[1..][|host| + 1] == portPart[0];
  }

  lemma AddressIsSplit(host: string, portPart: string, port: string, ipv6: IsIpv6)
    requires ']' !in host && ipv6(host) && IsPortPart(portPart, port)
    ensures var hostinfo := "[" + host + "]" + portPart;
            SplitHostPort(hostinfo) == HostPort(host, port) && BracketedIsFine(hostinfo, ipv6)
  {
    AddressPieces(host, portPart);
    PortPartIsAfterColon(portPart, port);
    PiecesAreSplit("[" + host + "]" + portPart, host, portPart, port, ipv6);
  }

  lemma NameIsSplit(host: string, portPart: string, port: string)
    requires ':' !in host && '[' !in host && IsPortPart(portPart, port) && '[' !in port
    ensures SplitHostPort(host + portPart) == HostPort(host, port)
  {
    var hostinfo := host + portPart;
    Text.IndexOfIsFirst(hostinfo, '[', |hostinfo|);
    Text.IndexOfIsFirst(hostinfo, ':', |host|);
    assert hostinfo[..|host|] == host && hostinfo[|host|..] == portPart;
    PortPartIsAfterColon(portPart, port);
    assert portPart != "" ==> hostinfo[|host| + 1..] == portPart[1..] == port;
  }

  // What follows the user information of an accepted URL: plain characters, with both brackets or with neither.
  lemma HostInfoIsPlain(hostPart: string, host: string, portPart: string, port: string, ipv6: IsIpv6)
    requires IsHostPart(hostPart, host, ipv6) && IsPortPart(portPart, port) && IsPort(port)
    requires forall k | 0 <= k < |host| :: !IsDelimiter(host[k]) && host[k] != '@'
    ensures forall k | 0 <= k < |hostPart + portPart| :: !IsDelimiter((hostPart + portPart)[k]) && (hostPart + portPart)[k] != '@'
  {
    assert forall k | 0 <= k < |portPart| :: !IsDelimiter(portPart[k]) && portPart[k] != '@';
    assert forall k | 0 <= k < |hostPart| :: !IsDelimiter(hostPart[k]) && hostPart[k] != '@';
  }

  lemma EmptyUserInfoIsNone(userInfo: string, hostinfo: string)
    requires IsEmptyUserInfo(userInfo) && '@' !in hostinfo
    ensures AfterLast(userInfo + hostinfo, '@') == hostinfo && !HasUserInfo(userInfo + hostinfo)
  {
    AfterLastOfJoined(userInfo, '@', hostinfo);
    var netloc := userInfo + hostinfo;
    if userInfo != "" {
      assert netloc[..|netloc| - |hostinfo| - 1] == userInfo[..|userInfo| - 1];
    }
  }

  lemma AddressHasBrackets(host: string, portPart: string)
    ensures var text := "[" + host + "]" + portPart; '[' in text && ']' in text
  {
    var text := "[" + host + "]" + portPart;
    assert text[0] == '[' && text[|host| + 1] == ']';
  }

  lemma NameHasNoBrackets(host: string, portPart: string, port: string)
    requires '[' !in host && ']' !in host && IsPortPart(portPart, port) && IsPort(port)
    ensures '[' !in host + portPart && ']' !in host + portPart
  {
    assert forall k | 0 <= k < |portPart| :: portPart[k] != '[' && portPart[k] != ']';
  }

  lemma HostInfoIsSplit(hostPart: string, host: string, portPart: string, port: string, ipv6: IsIpv6)
    requires IsHostPart(hostPart, host, ipv6) && IsPortPart(portPart, port) && IsPort(port) && '@' !in hostPart + portPart
    ensures SplitHostPort(hostPart + portPart) == HostPort(host, port)
    ensures BracketsAreFine(hostPart + portPart, ipv6)
  {
    AfterLastOfNone(hostPart + portPart, '@');
    if hostPart == host && ':' !in host && '[' !in host && ']' !in host {
      NameHasNoBrackets(host, portPart, port);
      NameIsSplit(host, portPart, port);
    } else {
      AddressInfoIsSplit(hostPart + portPart, host, portPart, port, ipv6);
    }
  }

  lemma AddressInfoIsSplit(hostinfo: string, host: string, portPart: string, port: string, ipv6: IsIpv6)
    requires hostinfo == "[" + host + "]" + portPart && ipv6(host) && ']' !in host && IsPortPart(portPart, port)
    requires AfterLast(hostinfo, '@') == hostinfo
    ensures SplitHostPort(hostinfo) == HostPort(host, port) && BracketsAreFine(hostinfo, ipv6)
  {
    assert SplitHostPort(hostinfo) == HostPort(host, port) && BracketedIsFine(hostinfo, ipv6) by {
      AddressIsSplit(host, portPart, port, ipv6);
    }
    assert '[' in hostinfo && ']' in hostinfo by { AddressHasBrackets(host, portPart); }
  }

  lemma BracketsStayFine(userInfo: string, hostinfo: string, ipv6: IsIpv6)
    requires IsEmptyUserInfo(userInfo) && '@' !in hostinfo && BracketsAreFine(hostinfo, ipv6)
    ensures BracketsAreFine(userInfo + hostinfo, ipv6)
  {
    AfterLastOfJoined(userInfo, '@', hostinfo);
    AfterLastOfNone(hostinfo, '@');
    assert forall c | c == '[' || c == ']' :: c in userInfo + hostinfo <==> c in hostinfo;
  }

  // The part of the URL between scheme and tail
  lemma NetlocIsAccepted(userInfo: string, hostPart: string, host: string, portPart: string, port: string, ipv6: IsIpv6)
    requires IsEmptyUserInfo(userInfo) && IsHostPart(hostPart, host, ipv6) && IsPortPart(portPart, port) && IsPort(port)
    requires forall k | 0 <= k < |host| :: !IsDelimiter(host[k]) && host[k] != '@'
    ensures var netloc := userInfo + (hostPart + portPart);
            && !HasUserInfo(netloc) && BracketsAreFine(netloc, ipv6)
            && SplitHostPort(AfterLast(netloc, '@')) == HostPort(host, port)
            && (forall k | 0 <= k < |netloc| :: !IsDelimiter(netloc[k]))
  {
    var hostinfo := hostPart + portPart;
    HostInfoIsPlain(hostPart, host, portPart, port, ipv6);
    EmptyUserInfoIsNone(userInfo, hostinfo);
    HostInfoIsSplit(hostPart, host, portPart, port, ipv6);
    BracketsStayFine(userInfo, hostinfo, ipv6);
  }

  lemma PartsAreAccepted(split: Split, host: string, port: string, allowInsecureLoopback: bool, ipv6: IsIpv6)
    requires split.netloc.Some? && !HasUserInfo(split.netloc.value) && BracketsAreFine(split.netloc.value, ipv6)
    requires SplitHostPort(AfterLast(split.netloc.value, '@')) == HostPort(host, port) && IsBareRest(split.rest)
    ensures NormalizedParts(split, allowInsecureLoopback, ipv6) ==
            NormalizedHostPort(split.scheme, HostPort(host, port), allowInsecureLoopback)
  {
  }

  lemma BareHostPort(u: UrlParts, allowInsecureLoopback: bool, ipv6: IsIpv6)
    requires IsBareUrl(u, allowInsecureLoopback, ipv6)
    ensures NormalizedHostPort(Text.Lower(u.schemeText), HostPort(u.host, u.port), allowInsecureLoopback) == Some(NormalForm(u))
    ensures IsWebScheme(Text.Lower(u.schemeText))
  {
    assert |Text.Lower(u.host)| == |u.host|;
  }

  lemma BareUrlIsAccepted(value: string, allowInsecureLoopback: bool, ipv6: IsIpv6, u: UrlParts)
    requires Written(value) == u.Whole() && IsBareUrl(u, allowInsecureLoopback, ipv6)
    ensures NormalizedUrl(value, allowInsecureLoopback, ipv6) == Some(NormalForm(u))
  {
    var split := Split(Text.Lower(u.schemeText), Some(u.Netloc()), u.tail);
    BareHostPort(u, allowInsecureLoopback, ipv6);
    assert SplitClean(Written(value)) == split && !HasUserInfo(u.Netloc()) && BracketsAreFine(u.Netloc(), ipv6)
           && SplitHostPort(AfterLast(u.Netloc(), '@')) == HostPort(u.host, u.port) && IsBareRest(u.tail) by {
      NetlocIsAccepted(u.userInfo, u.hostPart, u.host, u.portPart, u.port, ipv6);
      EmptyTailIsBareRest(u.tail);
      SplitOfJoined(u.schemeText, u.Netloc(), u.tail);
    }
    PartsAreAccepted(split, u.host, u.port, allowInsecureLoopback, ipv6);
  }

  // Exactly these URLs are accepted, whatever white space is around them, and the result is made of their parts alone.
  lemma UrlIsAcceptedIff(value: string, allowInsecureLoopback: bool, ipv6: IsIpv6, url: string)
    ensures NormalizedUrl(value, allowInsecureLoopback, ipv6) == Some(url) <==>
            exists u: UrlParts :: Written(value) == u.Whole() && IsBareUrl(u, allowInsecureLoopback, ipv6) && url == NormalForm(u)
  {
    if NormalizedUrl(value, allowInsecureLoopback, ipv6).Some? {
      var u := AcceptedUrlIsBare(value, allowInsecureLoopback, ipv6);
    }
    if u: UrlParts :| Written(value) == u.Whole() && IsBareUrl(u, allowInsecureLoopback, ipv6) && url == NormalForm(u) {
      BareUrlIsAccepted(value, allowInsecureLoopback, ipv6, u);
    }
  }
}
