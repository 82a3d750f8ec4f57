/**
 * The HTTP side of the local proxy: reading a request head and rewriting it
 * from absolute form to origin form. A request is text: its head as decoded
 * characters, followed by the body.
 */
module HttpProxy {
  import opened Bytes
  import opened Options
  import opened Text
  import opened HttpText

  datatype Error = Incomplete | MissingMethod | MissingTarget | MissingVersion | NotAbsolute | BadBracket
  datatype Result<+T> = Ok(value: T) | Err(error: Error)

  datatype Request = Request(verb: string, target: string, version: string, headers: seq<Header>, body: string)
  datatype Rewritten = Rewritten(host: string, port: nat, output: string)

  /** `parse_http_proxy_request`. */
  function ParseRequest(buffer: string): (r: Result<Request>) {
    match FindHeaderEnd(buffer)
    case None => Err(Incomplete)
    case Some(n) =>
      var lines := Lines(buffer[..n]);
      var words := Words(lines[0]);
      if |words| == 0 then Err(MissingMethod)
      else if |words| == 1 then Err(MissingTarget)
      else if |words| == 2 then Err(MissingVersion)
      else Ok(Request(words[0], words[1], words[2], Headers(lines[1..]), buffer[n + 4..]))
  }

  /** What every parsed request is made of. */
  predicate WellFormed(r: Request) {
    IsWord(r.verb) && IsWord(r.target) && IsWord(r.version) && forall h :: h in r.headers ==> IsField(h)
  }

  lemma ParsedIsWellFormed(buffer: string)
    requires ParseRequest(buffer).Ok?
    ensures WellFormed(ParseRequest(buffer).value)
  {
    var n := FindHeaderEnd(buffer).value;
    var lines := Lines(buffer[..n]);
    LinesAreLines(buffer[..n]);
    assert forall line :: line in lines[1..] ==> line in lines;
    ReadFields(lines[1..]);
  }

  // The target.

  predicate SchemeAt(s: string, i: nat) {
    i + 2 < |s| && s[i] == ':' && s[i + 1] == '/' && s[i + 2] == '/'
  }

  function SchemeFrom(s: string, i: nat): (n: nat)
    requires i <= |s|
    ensures i <= n <= |s| && (n < |s| ==> SchemeAt(s, n))
    ensures forall j :: i <= j < n ==> !SchemeAt(s, j)
    decreases |s| - i
  {
    if i < |s| && !SchemeAt(s, i) then SchemeFrom(s, i + 1) else i
  }

  datatype Target = Target(scheme: string, authority: string, path: string)

  /** The parts of an absolute-form target; the path of one without a slash is "/". */
  function SplitTarget(target: string): (r: Option<Target>)
    ensures r.Some? ==> r.value.path != "" && r.value.path[0] == '/'
  {
    var n := SchemeFrom(target, 0);
    if n == |target| then None
    else
      var rest := target[n + 3..];
      var slash := IndexFrom(rest, '/', 0);
      Some(Target(target[..n], rest[..slash], if slash < |rest| then rest[slash..] else "/"))
  }

  /** The target is its parts put together again, save for a path that was not there. */
  lemma TargetParts(target: string)
    requires SplitTarget(target).Some?
    ensures var t := SplitTarget(target).value; var k := |t.scheme| + 3;
            && k <= |target| && target[..k] == t.scheme + "://" && '/' !in t.authority && t.path[0] == '/'
            && (target[k..] == t.authority + t.path || (t.path == "/" && target[k..] == t.authority))
  {
    var rest := target[SchemeFrom(target, 0) + 3..];
    var slash := IndexFrom(rest, '/', 0);
    assert rest == rest[..slash] + rest[slash..];
  }

  lemma PathIsWord(target: string)
    requires IsWord(target) && SplitTarget(target).Some?
    ensures IsWord(SplitTarget(target).value.path)
  {
    var n := SchemeFrom(target, 0);
    var rest := target[n + 3..];
    assert forall i :: 0 <= i < |rest| ==> rest[i] == target[n + 3 + i];
  }

  function ParseHostPort(value: string, defaultPort: nat): (r: Result<(string, nat)>) {
    if value != "" && value[0] == '[' then
      var k := IndexFrom(value, ']', 0);
      if k == |value| then Err(BadBracket)
      else
        var rest := value[k + 1..];
        var port := if rest != "" && rest[0] == ':' then ParseU16(rest[1..]) else None;
        Ok((value[1..k], if port.Some? then port.value else defaultPort))
    else
      var k := LastIndexBefore(value, ':', |value|);
      if k > 0 && ParseU16(value[k..]).Some? then Ok((value[..k - 1], ParseU16(value[k..]).value))
      else Ok((value, defaultPort))
  }

  /** A host followed by a colon and a port is split there, whatever colons the host has. */
  lemma HostPortReads(host: string, digits: string, defaultPort: nat)
    requires (host != "" ==> host[0] != '[') && ParseU16(digits).Some?
    ensures ParseHostPort(host + (":" + digits), defaultPort) == Ok((host, ParseU16(digits).value))
  {
    var value := host + (":" + digits);
    var k := |host| + 1;
    assert value[k - 1] == ':' && value[k..] == digits && value[..k - 1] == host;
    forall j | k <= j < |value| ensures value[j] != ':' {
      assert value[j] == digits[j - k];
      assert j > k ==> digits[j - k] == digits[1..][j - k - 1];
    }
    assert LastIndexBefore(value, ':', |value|) == k;
  }

  lemma BracketEnds(host: string, rest: string)
    requires ']' !in host
    ensures var value := "[" + host + "]" + rest; var k := |host| + 1;
            IndexFrom(value, ']', 0) == k && value[1..k] == host && value[k + 1..] == rest && value[0] == '['
  {
    var value := "[" + host + "]" + rest;
    var k := |host| + 1;
    assert value[k] == ']' && value[0] == '[';
    forall j | 0 <= j < k ensures value[j] != ']' {
      assert j > 0 ==> value[j] == host[j - 1];
    }
  }

  /** A bracketed host ends at its bracket; what follows is a port or nothing. */
  lemma BracketReads(host: string, digits: string, defaultPort: nat)
    requires ']' !in host && ParseU16(digits).Some?
    ensures ParseHostPort("[" + host + "]", defaultPort) == Ok((host, defaultPort))
    ensures ParseHostPort("[" + host + "]" + (":" + digits), defaultPort) == Ok((host, ParseU16(digits).value))
  {
    BracketEnds(host, "");
    assert "[" + host + "]" + "" == "[" + host + "]";
    BracketEnds(host, ":" + digits);
    assert (":" + digits)[1..] == digits;
  }

  // The hop-by-hop fields.

  predicate IsConnection(name: string) {
    Lower(name) == "connection" || Lower(name) == "proxy-connection"
  }

  function OptionOf(part: string): (token: string) {
    Lower(Trim(part, Whitespace))
  }

  function OptionsIn(parts: seq<string>): (tokens: seq<string>)
    ensures forall t :: t in tokens <==> t != "" && exists part :: part in parts && OptionOf(part) == t
  {
    if parts == [] then []
    else
      assert parts == [parts[0]] + parts[1..];
      (if OptionOf(parts[0]) != "" then [OptionOf(parts[0])] else []) + OptionsIn(parts[1..])
  }

  /** `token` is one of the comma-separated options of the field. */
  predicate Names(h: Header, token: string) {
    IsConnection(h.name) && token in OptionsIn(Split(h.value, ','))
  }

  function TokensOf(h: Header): (tokens: seq<string>)
    ensures forall t :: t in tokens <==> Names(h, t)
  {
    if IsConnection(h.name) then OptionsIn(Split(h.value, ',')) else []
  }

  function ConnectionTokens(hs: seq<Header>): (tokens: seq<string>)
    ensures forall t :: t in tokens <==> exists h :: h in hs && Names(h, t)
  {
    if hs == [] then []
    else
      assert hs == [hs[0]] + hs[1..];
      TokensOf(hs[0]) + ConnectionTokens(hs[1..])
  }

  predicate IsUpgrade(hs: seq<Header>) {
    "upgrade" in ConnectionTokens(hs) && exists h :: h in hs && Lower(h.name) == "upgrade"
  }

  /** The hop-by-hop names: the fixed ones and those the connection options name, save Upgrade on an upgrade. */
  function HopByHop(tokens: seq<string>, upgrade: bool): (names: set<string>) {
    {"connection", "proxy-connection", "keep-alive", "proxy-authorization"}
    + ((set t | t in tokens) - if upgrade then {"upgrade"} else {})
  }

  function EndToEnd(hs: seq<Header>, hop: set<string>): (kept: seq<Header>)
    ensures forall h :: h in kept ==> h in hs
  {
    if hs == [] then []
    else
      var last := hs[|hs| - 1];
      EndToEnd(hs[..|hs| - 1], hop) + if Lower(last.name) in hop then [] else [last]
  }

  function ConnectionField(upgrade: bool): (h: Header) {
    Header("Connection", if upgrade then "Upgrade" else "close")
  }

  /** The header fields of the rewritten request. */
  function Forwarded(hs: seq<Header>): (out: seq<Header>) {
    EndToEnd(hs, HopByHop(ConnectionTokens(hs), IsUpgrade(hs))) + [ConnectionField(IsUpgrade(hs))]
  }

  function RequestLine(verb: string, path: string, version: string): (line: string) {
    verb + (" " + (path + (" " + version)))
  }

  /** The rewritten request as a message: its lines, an empty line and the body. */
  function Message(line: string, hs: seq<Header>, body: string): (text: string) {
    Joined([line] + HeaderLines(hs)) + (CRLF + (CRLF + body))
  }

  function Rewrite(r: Request): (out: Result<Rewritten>) {
    match SplitTarget(r.target)
    case None => Err(NotAbsolute)
    case Some(t) =>
      match ParseHostPort(t.authority, if Lower(t.scheme) == "https" then 443 else 80)
      case Err(e) => Err(e)
      case Ok(hp) =>
        Ok(Rewritten(hp.0, hp.1, Message(RequestLine(r.verb, t.path, r.version), Forwarded(r.headers), r.body)))
  }

  // The output buffer, filled step by step.

  /** Lines as the buffer holds them, each with its line end. */
  function Written(lines: seq<string>): (text: string) {
    if lines == [] then "" else Written(lines[..|lines| - 1]) + (lines[|lines| - 1] + CRLF)
  }

  lemma WrittenMore(lines: seq<string>, line: string)
    ensures Written(lines + [line]) == Written(lines) + (line + CRLF)
  {
    assert (lines + [line])[..|lines|] == lines;
  }

  lemma {:induction false} JoinedMore(lines: seq<string>, line: string)
    requires lines != []
    ensures Joined(lines + [line]) == Joined(lines) + (CRLF + line)
  {
    if |lines| == 1 {
      assert (lines + [line])[1..] == [line];
    } else {
      assert (lines + [line])[1..] == lines[1..] + [line];
      JoinedMore(lines[1..], line);
      Assoc(lines[0], CRLF + Joined(lines[1..]), CRLF + line);
      Assoc(CRLF, Joined(lines[1..]), CRLF + line);
    }
  }

  lemma {:induction false} WrittenIsJoined(lines: seq<string>)
    requires lines != []
    ensures Written(lines) == Joined(lines) + CRLF
  {
    var init, last := lines[..|lines| - 1], lines[|lines| - 1];
    assert lines == init + [last];
    if init == [] {
      assert lines == [last] && Written(init) == "";
      assert "" + (last + CRLF) == last + CRLF;
    } else {
      WrittenIsJoined(init);
      JoinedMore(init, last);
      Assoc(Joined(init), CRLF, last + CRLF);
      Assoc(Joined(init), CRLF + last, CRLF);
      Assoc(CRLF, last, CRLF);
    }
  }

  /** The final field, the empty line and the body complete the message. */
  lemma Completed(line: string, kept: seq<Header>, last: Header, body: string)
    ensures Written([line] + HeaderLines(kept)) + (HeaderLine(last) + CRLF + CRLF) + body
            == Message(line, kept + [last], body)
  {
    var lines := [line] + HeaderLines(kept);
    var all := [line] + HeaderLines(kept + [last]);
    assert all == lines + [HeaderLine(last)];
    WrittenMore(lines, HeaderLine(last));
    WrittenIsJoined(all);
    var w, e := Written(lines), HeaderLine(last) + CRLF;
    Assoc(w, e, CRLF);
    Assoc(Joined(all), CRLF, CRLF);
    Assoc(Joined(all), CRLF + CRLF, body);
    Assoc(CRLF, CRLF, body);
  }

  lemma FinalBytes(upgrade: bool)
    ensures (if upgrade then "Connection: Upgrade\r\n\r\n" else "Connection: close\r\n\r\n")
            == HeaderLine(ConnectionField(upgrade)) + CRLF + CRLF
  {
  }

  lemma EndToEndMore(hs: seq<Header>, i: nat, hop: set<string>)
    requires i < |hs|
    ensures EndToEnd(hs[..i + 1], hop) == EndToEnd(hs[..i], hop) + if Lower(hs[i].name) in hop then [] else [hs[i]]
  {
    assert hs[..i + 1][..i] == hs[..i];
  }

  lemma HeaderLinesMore(first: string, hs: seq<Header>, h: Header)
    ensures [first] + HeaderLines(hs + [h]) == [first] + HeaderLines(hs) + [HeaderLine(h)]
  {
  }

  method WriteHeaders(first: string, hs: seq<Header>, hop: set<string>) returns (output: string)
    ensures output == Written([first] + HeaderLines(EndToEnd(hs, hop)))
  {
    output := first + "\r\n";
    ghost var kept: seq<Header> := [];
    assert [first] + HeaderLines([]) == [] + [first];
    WrittenMore([], first);
    for i := 0 to |hs|
      invariant kept == EndToEnd(hs[..i], hop)
      invariant output == Written([first] + HeaderLines(kept))
    {
      EndToEndMore(hs, i, hop);
      var lower := Lower(hs[i].name);
      if lower in hop {
        continue;
      }
      HeaderLinesMore(first, kept, hs[i]);
      WrittenMore([first] + HeaderLines(kept), HeaderLine(hs[i]));
      output := output + (HeaderLine(hs[i]) + "\r\n");
      kept := kept + [hs[i]];
    }
    assert hs[..|hs|] == hs;
  }

  /** `rewrite_http_proxy_request`. */
  method RewriteRequest(r: Request) returns (out: Result<Rewritten>)
    ensures out == Rewrite(r)
  {
    var target := SplitTarget(r.target);
    if target.None? {
      return Err(NotAbsolute);
    }
    var t := target.value;
    var hostPort := ParseHostPort(t.authority, if Lower(t.scheme) == "https" then 443 else 80);
    if hostPort.Err? {
      return Err(hostPort.error);
    }
    var upgrade := IsUpgrade(r.headers);
    var hop := HopByHop(ConnectionTokens(r.headers), upgrade);
    var line := RequestLine(r.verb, t.path, r.version);
    var output := WriteHeaders(line, r.headers, hop);
    FinalBytes(upgrade);
    Completed(line, EndToEnd(r.headers, hop), ConnectionField(upgrade), r.body);
    output := output + if upgrade then "Connection: Upgrade\r\n\r\n" else "Connection: close\r\n\r\n";
    output := output + r.body;
    out := Ok(Rewritten(hostPort.value.0, hostPort.value.1, output));
  }

  // What the rewritten request says.

  lemma ConnectionIsField(upgrade: bool)
    ensures IsField(ConnectionField(upgrade))
  {
    var h := ConnectionField(upgrade);
    assert forall i :: 0 <= i < |h.name| ==> h.name[i] != '\r';
    assert forall i :: 0 <= i < |h.value| ==> h.value[i] != '\r';
  }

  lemma RequestLineIsClean(a: string, b: string, c: string)
    requires IsWord(a) && IsWord(b) && IsWord(c)
    ensures Clean(RequestLine(a, b, c))
  {
    var line := RequestLine(a, b, c);
    assert line[0] == a[0] && line[|line| - 1] == c[|c| - 1];
    assert forall i :: 0 <= i < |line| ==> line[i] == ' ' || !IsWhitespace(line[i]);
  }

  lemma MessageLinesAreClean(line: string, hs: seq<Header>)
    requires Clean(line) && forall h :: h in hs ==> IsField(h)
    ensures AllClean([line] + HeaderLines(hs))
  {
    forall i | 0 <= i < |hs| ensures Clean(HeaderLines(hs)[i]) {
      assert hs[i] in hs;
      FieldLineIsClean(hs[i]);
    }
  }

  lemma HeadReads(lines: seq<string>, body: string)
    requires lines != [] && AllClean(lines) && |Words(lines[0])| == 3
    ensures var w := Words(lines[0]);
            ParseRequest(Joined(lines) + (CRLF + (CRLF + body))) ==
            Ok(Request(w[0], w[1], w[2], Headers(lines[1..]), body))
  {
    HeadEnds(lines, body);
    LinesOfJoined(lines);
  }

  lemma MessageReads(line: string, words: seq<string>, hs: seq<Header>, body: string)
    requires Clean(line) && Words(line) == words && |words| == 3 && forall h :: h in hs ==> IsField(h)
    ensures ParseRequest(Message(line, hs, body)) == Ok(Request(words[0], words[1], words[2], hs, body))
  {
    var lines := [line] + HeaderLines(hs);
    MessageLinesAreClean(line, hs);
    HeadReads(lines, body);
    FieldsRoundTrip(hs);
    assert lines[1..] == HeaderLines(hs);
  }

  /**
   * Reading the rewritten request again gives the same method, version and
   * body, the origin-form path and exactly the forwarded fields.
   */
  lemma RewriteReparses(buffer: string)
    requires ParseRequest(buffer).Ok? && Rewrite(ParseRequest(buffer).value).Ok?
    ensures var r := ParseRequest(buffer).value;
            ParseRequest(Rewrite(r).value.output) ==
            Ok(Request(r.verb, SplitTarget(r.target).value.path, r.version, Forwarded(r.headers), r.body))
  {
    var r := ParseRequest(buffer).value;
    ParsedIsWellFormed(buffer);
    PathIsWord(r.target);
    var path := SplitTarget(r.target).value.path;
    RequestLineIsClean(r.verb, path, r.version);
    ThreeWords(r.verb, path, r.version);
    ConnectionIsField(IsUpgrade(r.headers));
    MessageReads(RequestLine(r.verb, path, r.version), [r.verb, path, r.version], Forwarded(r.headers), r.body);
  }

  /** The values of the fields with one name, in order. */
  function Values(hs: seq<Header>, lower: string): (values: seq<string>) {
    if hs == [] then []
    else
      var last := hs[|hs| - 1];
      Values(hs[..|hs| - 1], lower) + if Lower(last.name) == lower then [last.value] else []
  }

  lemma ValuesMore(hs: seq<Header>, h: Header, lower: string)
    ensures Values(hs + [h], lower) == Values(hs, lower) + if Lower(h.name) == lower then [h.value] else []
  {
    assert (hs + [h])[..|hs|] == hs;
  }

  lemma {:induction false} KeptValues(hs: seq<Header>, hop: set<string>, lower: string)
    ensures Values(EndToEnd(hs, hop), lower) == if lower in hop then [] else Values(hs, lower)
  {
    if hs != [] {
      var init, last := hs[..|hs| - 1], hs[|hs| - 1];
      KeptValues(init, hop, lower);
      if Lower(last.name) in hop {
        assert EndToEnd(hs, hop) == EndToEnd(init, hop);
      } else {
        ValuesMore(EndToEnd(init, hop), last, lower);
      }
    }
  }

  lemma ConnectionLower()
    ensures Lower("Connection") == "connection"
  {
  }

  /**
   * Field by field (section 7.6.1 of RFC 9110): an end-to-end field keeps its
   * values, every hop-by-hop field is gone, and there is one Connection field.
   */
  lemma ForwardedValues(hs: seq<Header>, lower: string)
    ensures lower == "connection" ==> Values(Forwarded(hs), lower) == [if IsUpgrade(hs) then "Upgrade" else "close"]
    ensures lower != "connection" ==>
              Values(Forwarded(hs), lower) ==
              if lower in HopByHop(ConnectionTokens(hs), IsUpgrade(hs)) then [] else Values(hs, lower)
  {
    var hop := HopByHop(ConnectionTokens(hs), IsUpgrade(hs));
    var last := ConnectionField(IsUpgrade(hs));
    KeptValues(hs, hop, lower);
    ValuesMore(EndToEnd(hs, hop), last, lower);
    ConnectionLower();
  }

  lemma NamedIsHop(tokens: seq<string>, upgrade: bool, token: string)
    requires token in tokens
    ensures token in HopByHop(tokens, upgrade) <==> !(upgrade && token == "upgrade")
  {
    assert |"upgrade"| == 7 && |"connection"| == 10 && |"proxy-connection"| == 16;
    assert |"keep-alive"| == 10 && |"proxy-authorization"| == 19;
  }

  lemma {:induction false} HasValues(hs: seq<Header>, lower: string)
    requires exists h :: h in hs && Lower(h.name) == lower
    ensures Values(hs, lower) != []
  {
    var last := hs[|hs| - 1];
    if Lower(last.name) != lower {
      assert hs == hs[..|hs| - 1] + [last];
      HasValues(hs[..|hs| - 1], lower);
    }
  }

  /** An upgrade keeps its Upgrade fields; any other field that a connection option names is gone. */
  lemma NamedFieldsGone(hs: seq<Header>, h: Header, token: string)
    requires h in hs && Names(h, token) && token != "connection"
    ensures Values(Forwarded(hs), token) == if IsUpgrade(hs) && token == "upgrade" then Values(hs, token) else []
    ensures IsUpgrade(hs) ==> Values(hs, "upgrade") != []
  {
    NamedIsHop(ConnectionTokens(hs), IsUpgrade(hs), token);
    ForwardedValues(hs, token);
    if IsUpgrade(hs) { HasValues(hs, "upgrade"); }
  }
}
