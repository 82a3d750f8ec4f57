/**
 * The PAC script is the router compiled into two tables and a lookup loop. It
 * is modelled as the algorithm the emitted JavaScript runs, and compared with
 * the router rule by rule.
 */
module Pac {
  import opened Options
  import opened Text
  import opened Router

  datatype Verdict = ProxyLine | GoDirect

  /**
   * The one key an object literal cannot give itself: a property written
   * "__proto__" with the value 1 is dropped (section B.3.1 of ECMA-262).
   */
  const PROTO := "__proto__"

  predicate CarriesTcp(protocol: string) {
    protocol == "all" || protocol == "tcp"
  }

  predicate IsDomainChar(c: char) {
    IsAlphanumeric(c) || c == '.' || c == '-' || c == '_'
  }

  function NormalizeDomain(domain: string): (r: Option<string>) {
    var n := Lower(Trim(Trim(Without(domain, '*'), Dots), Whitespace));
    if n != "" && forall i :: 0 <= i < |n| ==> IsDomainChar(n[i]) then Some(n) else None
  }

  /** A rule stands in the table as `key`. */
  predicate Listed(rule: DomainRule, key: string) {
    CarriesTcp(rule.resource.protocol) && NormalizeDomain(rule.domain) == Some(key)
  }

  function KeysOf(rule: DomainRule): (keys: seq<string>)
    ensures forall key :: key in keys <==> Listed(rule, key)
  {
    var n := NormalizeDomain(rule.domain);
    if CarriesTcp(rule.resource.protocol) && n.Some? then [n.value] else []
  }

  function TcpDomains(rules: seq<DomainRule>): (keys: seq<string>)
    ensures forall key :: key in keys <==> exists rule :: rule in rules && Listed(rule, key)
  {
    if rules == [] then []
    else
      assert rules == [rules[0]] + rules[1..];
      KeysOf(rules[0]) + TcpDomains(rules[1..])
  }

  predicate Ranged(rule: IpRule, range: (nat, nat)) {
    CarriesTcp(rule.resource.protocol) && range == (rule.ipMin, rule.ipMax) && rule.ipMin <= rule.ipMax
  }

  function TcpRanges(rules: seq<IpRule>): (ranges: seq<(nat, nat)>)
    ensures forall r :: r in ranges <==> exists rule :: rule in rules && Ranged(rule, r)
  {
    if rules == [] then []
    else
      assert rules == [rules[0]] + rules[1..];
      var r := (rules[0].ipMin, rules[0].ipMax);
      (if Ranged(rules[0], r) then [r] else []) + TcpRanges(rules[1..])
  }

  /** The tables of the script: the listed keys and ranges in any order, without or with repeats. */
  datatype Script = Script(domains: seq<string>, ranges: seq<(nat, nat)>)

  ghost predicate Compiled(script: Script, s: Snapshot) {
    && (forall key :: key in script.domains <==> key in TcpDomains(s.domains))
    && (forall r :: r in script.ranges <==> r in TcpRanges(s.ips))
  }

  // What the script decides, without its loops.

  /** `d` is the host, or what stands behind one of its dots. */
  predicate LabelSuffix(host: string, d: string) {
    host == d || (|d| < |host| && host[|host| - |d| - 1] == '.' && host[|host| - |d|..] == d)
  }

  predicate Covers(key: string, host: string) {
    key != PROTO && LabelSuffix(host, key)
  }

  predicate Covered(keys: seq<string>, host: string) {
    exists key :: key in keys && Covers(key, host)
  }

  predicate InRanges(ranges: seq<(nat, nat)>, n: int) {
    exists r :: r in ranges && r.0 <= n <= r.1
  }

  predicate ScriptOctet(s: string) {
    AllDigits(s) && |s| <= 3 && Decimal(s) <= 255
  }

  /** The first `k` octets as one number, or -1. */
  function Number(parts: seq<string>, k: nat): (n: int)
    requires k <= |parts|
    ensures n >= -1
  {
    if k == 0 then 0
    else
      var before := Number(parts, k - 1);
      if before < 0 || !ScriptOctet(parts[k - 1]) then -1 else before * 256 + Decimal(parts[k - 1])
  }

  function Dotted(value: string): (n: int) {
    var parts := Split(value, '.');
    if |parts| == 4 then Number(parts, 4) else -1
  }

  function ScriptHost(host: string): (h: string) {
    var h := Lower(host);
    if h != "" && h[|h| - 1] == '.' then h[..|h| - 1] else h
  }

  /** The address the ranges are searched for; `dns` stands for `dnsResolve`. */
  function Address(h: string, dns: string -> Option<string>): (n: int) {
    if Dotted(h) >= 0 then Dotted(h)
    else if '.' !in h then -1
    else
      match dns(h)
      case None => -1
      case Some(a) => if a == "" then -1 else Dotted(a)
  }

  predicate Proxied(script: Script, host: string, dns: string -> Option<string>) {
    var h := ScriptHost(host);
    Covered(script.domains, h) || (Address(h, dns) >= 0 && InRanges(script.ranges, Address(h, dns)))
  }

  // The script itself.

  lemma BehindFirstDot(host: string, d: string, dot: nat)
    requires host != d && dot < |host| && host[dot] == '.' && forall j :: 0 <= j < dot ==> host[j] != '.'
    ensures LabelSuffix(host, d) <==> LabelSuffix(host[dot + 1..], d)
  {
    var rest := host[dot + 1..];
    if |d| == |rest| {
      assert host[|host| - |d|..] == rest;
    } else if |d| < |rest| {
      var tail := host[|host| - |d|..];
      assert rest[|rest| - |d|..] == tail;
      assert rest[|rest| - |d| - 1] == host[|host| - |d| - 1];
    }
  }

  lemma NextLabel(host: string, d: string)
    requires host != d
    ensures var dot := IndexFrom(host, '.', 0);
            LabelSuffix(host, d) <==> dot < |host| && LabelSuffix(host[dot + 1..], d)
  {
    var dot := IndexFrom(host, '.', 0);
    if dot < |host| { BehindFirstDot(host, d, dot); }
  }

  lemma NextLabelCovered(keys: seq<string>, host: string)
    requires host == PROTO || host !in keys
    ensures var dot := IndexFrom(host, '.', 0);
            Covered(keys, host) <==> dot < |host| && Covered(keys, host[dot + 1..])
  {
    var dot := IndexFrom(host, '.', 0);
    forall key | key in keys && key != PROTO
      ensures Covers(key, host) <==> dot < |host| && Covers(key, host[dot + 1..])
    {
      NextLabel(host, key);
    }
  }

  /** The walk over the host's suffixes, one label at a time. */
  method SuffixWalk(keys: seq<string>, host: string) returns (hit: bool)
    ensures hit == Covered(keys, host)
  {
    var suffix := host;
    while true
      invariant Covered(keys, host) == Covered(keys, suffix)
      decreases |suffix|
    {
      if suffix in keys && suffix != PROTO {
        assert Covers(suffix, suffix);
        return true;
      }
      NextLabelCovered(keys, suffix);
      var dot := IndexFrom(suffix, '.', 0);
      if dot == |suffix| {
        return false;
      }
      suffix := suffix[dot + 1..];
    }
  }

  lemma {:induction false} NumberStops(parts: seq<string>, k: nat, n: nat)
    requires k <= n <= |parts| && Number(parts, k) == -1
    ensures Number(parts, n) == -1
  {
    if k < n { NumberStops(parts, k, n - 1); }
  }

  method IpToNumber(value: string) returns (number: int)
    ensures number == Dotted(value)
  {
    var parts := Split(value, '.');
    if |parts| != 4 {
      return -1;
    }
    number := 0;
    for i := 0 to 4
      invariant number == Number(parts, i) && number >= 0
    {
      if !AllDigits(parts[i]) || |parts[i]| > 3 || Decimal(parts[i]) > 255 {
        NumberStops(parts, i + 1, 4);
        return -1;
      }
      number := number * 256 + Decimal(parts[i]);
    }
  }

  method FindProxyForURL(script: Script, host: string, dns: string -> Option<string>) returns (v: Verdict)
    ensures v == if Proxied(script, host, dns) then ProxyLine else GoDirect
  {
    var h := ScriptHost(host);
    var hit := SuffixWalk(script.domains, h);
    if hit {
      return ProxyLine;
    }
    if |script.ranges| == 0 {
      return GoDirect;
    }
    var number := IpToNumber(h);
    if number < 0 {
      if '.' !in h {
        return GoDirect;
      }
      var resolved := dns(h);
      if resolved.None? || resolved.value == "" {
        return GoDirect;
      }
      number := IpToNumber(resolved.value);
    }
    for i := 0 to |script.ranges|
      invariant forall k :: 0 <= k < i ==> !(script.ranges[k].0 <= number <= script.ranges[k].1)
    {
      if number >= 0 && script.ranges[i].0 <= number <= script.ranges[i].1 {
        return ProxyLine;
      }
    }
    return GoDirect;
  }

  // The script against the router.

  predicate PlainRule(domain: string) {
    forall i :: 0 <= i < |domain| ==> IsDomainChar(domain[i]) || domain[i] == '*'
  }

  predicate PlainRules(rules: seq<DomainRule>) {
    forall rule :: rule in rules && CarriesTcp(rule.resource.protocol) ==> PlainRule(rule.domain)
  }

  predicate OneLeadingDot(domain: string) {
    var w := Without(domain, '*');
    |w| > 1 && w[0] == '.' ==> w[1] != '.'
  }

  predicate OneLeadingDots(rules: seq<DomainRule>) {
    forall rule :: rule in rules && CarriesTcp(rule.resource.protocol) ==> OneLeadingDot(rule.domain)
  }

  /** An ASCII host with at most one trailing dot and something in front of it. */
  predicate PlainHost(host: string) {
    && IsAscii(host) && host != "" && host != "."
    && (|host| > 1 && host[|host| - 1] == '.' ==> host[|host| - 2] != '.')
  }

  lemma HostsAgree(host: string)
    requires PlainHost(host)
    ensures var h := ScriptHost(host); CleanHost(host) == h && h != "" && h[|h| - 1] != '.'
  {
    var e := KeptEnd(host, Dots, |host|);
    var n := |host|;
    assert e == if host[n - 1] == '.' then n - 1 else n by {
      if host[n - 1] == '.' { assert KeptEnd(host, Dots, n) == KeptEnd(host, Dots, n - 1); }
    }
    assert Lower(host)[..e] == Lower(host[..e]);
  }

  lemma {:induction false} KeptLower(s: string, i: nat)
    requires i <= |s|
    ensures Kept(Lower(s), Dots, i) == Kept(s, Dots, i)
    decreases |s| - i
  {
    if i < |s| && s[i] == '.' { KeptLower(s, i + 1); }
  }

  lemma NoWhitespace(b: string)
    requires forall i :: 0 <= i < |b| ==> IsDomainChar(b[i])
    ensures Trim(b, Whitespace) == b
    ensures forall i :: 0 <= i < |b| ==> IsDomainChar(Lower(b)[i])
  {
    assert b != "" ==> !IsWhitespace(b[0]) && !IsWhitespace(b[|b| - 1]);
    assert KeptEnd(b, Whitespace, |b|) == |b| && b[..|b|] == b;
    assert Kept(b, Whitespace, 0) == 0;
  }

  /** The table key is the router's rule without its leading dots. */
  lemma NormalizePlain(domain: string)
    requires PlainRule(domain)
    ensures var n := TrimStart(CleanRule(domain), Dots);
            NormalizeDomain(domain) == if n == "" then None else Some(n)
  {
    var w := Without(domain, '*');
    var e := TrimEnd(w, Dots);
    var b := TrimStart(e, Dots);
    forall i | 0 <= i < |b| ensures IsDomainChar(b[i]) {
      assert b[i] in w;
      assert b[i] in domain;
    }
    NoWhitespace(b);
    KeptLower(e, 0);
    assert TrimStart(Lower(e), Dots) == Lower(b);
  }

  /** A cleaned rule never ends in a dot. */
  lemma RuleEnds(domain: string)
    ensures var d := CleanRule(domain); d != "" ==> d[|d| - 1] != '.'
  {
  }

  /** Leading dots are dropped up to the last of them. */
  lemma DotBefore(d: string)
    requires d != "" && d[0] == '.' && d[|d| - 1] != '.'
    ensures var n := TrimStart(d, Dots); n != "" && EndsWith(d, "." + n)
  {
    var k := Kept(d, Dots, 0);
    assert k > 0 && d[k - 1] == '.';
    assert !In(Dots, d[|d| - 1]);
    assert d[k - 1..] == "." + d[k..];
  }

  lemma DottedTail(host: string, d: string)
    ensures EndsWith(host, "." + d) <==>
              |d| < |host| && host[|host| - |d| - 1] == '.' && host[|host| - |d|..] == d
  {
    if |d| < |host| {
      var p := |host| - |d| - 1;
      assert host[p..] == [host[p]] + host[p + 1..];
    }
  }

  /** Whatever the cleaned rule matches, its key covers. */
  lemma KeyCovers(d: string, h: string)
    requires Matches(d, h) && (d != "" ==> d[|d| - 1] != '.') && h != "" && h[|h| - 1] != '.'
    ensures var n := TrimStart(d, Dots); n != "" && LabelSuffix(h, n)
  {
    var n := TrimStart(d, Dots);
    DottedTail(h, n);
    if d != "" && d[0] == '.' {
      DotBefore(d);
      if EndsWith(h, d) { EndsWithTail(h, d, "." + n); }
    }
  }

  lemma OneDot(d: string)
    requires d != "" && d[0] == '.' && (|d| > 1 ==> d[1] != '.')
    ensures d == "." + TrimStart(d, Dots)
  {
    assert Kept(d, Dots, 0) == Kept(d, Dots, 1) == 1;
  }

  /** With at most one leading dot the key covers no more than the rule. */
  lemma KeyMatches(d: string, h: string)
    requires |d| > 1 && d[0] == '.' ==> d[1] != '.'
    requires var n := TrimStart(d, Dots); n != "" && LabelSuffix(h, n)
    ensures Matches(d, h)
  {
    DottedTail(h, TrimStart(d, Dots));
    if d != "" && d[0] == '.' { OneDot(d); }
  }

  lemma CleanLeadingDot(domain: string)
    requires OneLeadingDot(domain)
    ensures var d := CleanRule(domain); |d| > 1 && d[0] == '.' ==> d[1] != '.'
  {
  }

  lemma RuleCovers(domain: string, host: string)
    requires PlainHost(host) && DomainMatches(domain, host)
    ensures var key := TrimStart(CleanRule(domain), Dots); key != "" && LabelSuffix(ScriptHost(host), key)
  {
    HostsAgree(host);
    RuleEnds(domain);
    KeyCovers(CleanRule(domain), CleanHost(host));
  }

  lemma RuleMatches(domain: string, host: string)
    requires PlainHost(host) && OneLeadingDot(domain)
    requires var key := TrimStart(CleanRule(domain), Dots); key != "" && LabelSuffix(ScriptHost(host), key)
    ensures DomainMatches(domain, host)
  {
    HostsAgree(host);
    CleanLeadingDot(domain);
    KeyMatches(CleanRule(domain), CleanHost(host));
  }

  /** Some rule other than one whose key is `PROTO` manages the host. */
  predicate ManagedByName(rules: seq<DomainRule>, host: string, port: Option<nat>) {
    exists rule :: rule in rules && DomainRuleApplies(rule, host, port, Tcp)
                   && NormalizeDomain(rule.domain) != Some(PROTO)
  }

  lemma TableCovers(script: Script, s: Snapshot, host: string, port: Option<nat>)
    requires Compiled(script, s) && PlainRules(s.domains) && PlainHost(host)
    requires ManagedByName(s.domains, host, port)
    ensures Covered(script.domains, ScriptHost(host))
  {
    var rule :| rule in s.domains && DomainRuleApplies(rule, host, port, Tcp)
                && NormalizeDomain(rule.domain) != Some(PROTO);
    var key := TrimStart(CleanRule(rule.domain), Dots);
    RuleCovers(rule.domain, host);
    NormalizePlain(rule.domain);
    assert Listed(rule, key);
    assert key in script.domains && Covers(key, ScriptHost(host));
  }

  lemma TableManages(script: Script, s: Snapshot, host: string)
    requires Compiled(script, s) && PlainRules(s.domains) && PlainHost(host)
    requires OneLeadingDots(s.domains)
    requires Covered(script.domains, ScriptHost(host))
    ensures ManagedByName(s.domains, host, None)
  {
    var key :| key in script.domains && Covers(key, ScriptHost(host));
    assert key in TcpDomains(s.domains);
    var rule :| rule in s.domains && Listed(rule, key);
    NormalizePlain(rule.domain);
    RuleMatches(rule.domain, host);
    assert DomainRuleApplies(rule, host, None, Tcp);
  }

  lemma NoProtoRule(rules: seq<DomainRule>, host: string, port: Option<nat>)
    requires PROTO !in TcpDomains(rules) && MatchDomainPorts(rules, host, port, Tcp).Some?
    ensures ManagedByName(rules, host, port)
  {
    var rule :| rule in rules && DomainRuleApplies(rule, host, port, Tcp);
    assert NormalizeDomain(rule.domain) == Some(PROTO) ==> Listed(rule, PROTO);
  }

  /**
   * For rules with at most one leading dot the suffix walk succeeds exactly
   * when the domain is managed by a rule whose key is not `PROTO`.
   */
  lemma WalkIsDomainManaged(script: Script, s: Snapshot, host: string)
    requires Compiled(script, s) && PlainRules(s.domains) && PlainHost(host)
    requires OneLeadingDots(s.domains)
    ensures Covered(script.domains, ScriptHost(host)) <==> ManagedByName(s.domains, host, None)
    ensures PROTO !in TcpDomains(s.domains) ==>
              (Covered(script.domains, ScriptHost(host)) <==> DomainManaged(s.domains, host, Tcp))
  {
    if Covered(script.domains, ScriptHost(host)) { TableManages(script, s, host); }
    if ManagedByName(s.domains, host, None) { TableCovers(script, s, host, None); }
    if PROTO !in TcpDomains(s.domains) && DomainManaged(s.domains, host, Tcp) { NoProtoRule(s.domains, host, None); }
  }

  /** Pieces of digits and the dots between them make up the whole. */
  lemma {:induction false} DottedDigits(s: string, i: nat)
    requires i <= |s|
    requires forall part :: part in SplitFrom(s, '.', i) ==> AllDigits(part)
    ensures forall j :: i <= j < |s| ==> s[j] == '.' || IsDigit(s[j])
    ensures i < |s| && s[|s| - 1] != '.'
    decreases |s| - i
  {
    var n := IndexFrom(s, '.', i);
    var head := s[i..n];
    assert head in SplitFrom(s, '.', i);
    assert forall j :: i <= j < n ==> s[j] == head[j - i];
    if n < |s| {
      assert SplitFrom(s, '.', i) == [head] + SplitFrom(s, '.', n + 1);
      DottedDigits(s, n + 1);
    }
  }

  lemma LiteralStays(host: string)
    requires ParseIpv4(host).Some?
    ensures ScriptHost(host) == host
  {
    var parts := Split(host, '.');
    forall part | part in parts ensures AllDigits(part) {
      var k :| 0 <= k < |parts| && parts[k] == part;
      assert IsOctet(parts[k]);
    }
    DottedDigits(host, 0);
    LowerStays(host);
  }

  /** The address parser's literals read the same in the script, ending in no dot. */
  lemma LiteralAgrees(host: string)
    requires ParseIpv4(host).Some?
    ensures Dotted(ScriptHost(host)) == ParseIpv4(host).value
  {
    var parts := Split(host, '.');
    LiteralStays(host);
    assert Number(parts, 0) == 0;
    assert Number(parts, 1) == Decimal(parts[0]);
    assert Number(parts, 2) == Decimal(parts[0]) * 256 + Decimal(parts[1]);
    assert Number(parts, 3) == (Decimal(parts[0]) * 256 + Decimal(parts[1])) * 256 + Decimal(parts[2]);
  }

  lemma RangesAgree(script: Script, s: Snapshot, ip: nat)
    requires Compiled(script, s)
    ensures InRanges(script.ranges, ip) <==> IpManagedForTcp(s.ips, ip)
  {
    if IpManagedForTcp(s.ips, ip) {
      var rule :| rule in s.ips && rule.ipMin <= ip <= rule.ipMax && ProtocolMatches(rule.resource.protocol, Tcp);
      var r := (rule.ipMin, rule.ipMax);
      assert Ranged(rule, r);
      assert r in script.ranges;
    }
    if InRanges(script.ranges, ip) {
      var r :| r in script.ranges && r.0 <= ip <= r.1;
      assert r in TcpRanges(s.ips);
    }
  }

  /** For an address literal the script and the router's TCP ranges decide alike, whatever the resolver says. */
  lemma LiteralVerdict(script: Script, s: Snapshot, host: string, dns: string -> Option<string>)
    requires Compiled(script, s) && ParseIpv4(host).Some?
    ensures Proxied(script, host, dns) <==>
              Covered(script.domains, ScriptHost(host)) || IpManagedForTcp(s.ips, ParseIpv4(host).value)
  {
    LiteralAgrees(host);
    RangesAgree(script, s, ParseIpv4(host).value);
  }

  /** The script misses no managed destination: every host the router manages on some port gets the proxy. */
  lemma MissesNothing(script: Script, s: Snapshot, host: string, port: nat, ipv6: bool, dns: string -> Option<string>)
    requires Compiled(script, s) && PlainRules(s.domains) && PlainHost(host)
    requires PROTO !in TcpDomains(s.domains)
    requires Route(s, host, port, Tcp, ipv6).Managed?
    ensures Proxied(script, host, dns)
  {
    match ParseIpv4(host)
    case Some(ip) =>
      LiteralVerdict(script, s, host, dns);
      var rule :| rule in s.ips && IpRuleApplies(rule, ip, port, Tcp);
      assert rule.ipMin <= ip <= rule.ipMax;
    case None =>
      NoProtoRule(s.domains, host, Some(port));
      TableCovers(script, s, host, Some(port));
  }

  /**
   * The script's verdict in the router's own terms: the proxy is chosen exactly
   * for a name some rule other than `PROTO` manages, or an address, resolved if
   * need be, in a managed TCP range.
   */
  lemma ProxiedExactly(script: Script, s: Snapshot, host: string, dns: string -> Option<string>)
    requires Compiled(script, s) && PlainRules(s.domains) && PlainHost(host)
    requires OneLeadingDots(s.domains)
    ensures var ip := Address(ScriptHost(host), dns);
            Proxied(script, host, dns) <==>
            ManagedByName(s.domains, host, None) || (ip >= 0 && IpManagedForTcp(s.ips, ip))
  {
    WalkIsDomainManaged(script, s, host);
    var ip := Address(ScriptHost(host), dns);
    if ip >= 0 { RangesAgree(script, s, ip); }
  }

  predicate LowerLabel(key: string) {
    key != "" && forall i :: 0 <= i < |key| ==> IsDomainChar(key[i]) && !IsUpper(key[i]) && key[i] != '.'
  }

  lemma LabelIsPlain(key: string)
    requires LowerLabel(key)
    ensures PlainRule(key) && PlainHost(key) && '.' !in key && '*' !in key
  {
    assert key[0] != '.' && key[|key| - 1] != '.';
    assert IsAscii(key);
  }

  lemma LabelStays(key: string)
    requires LowerLabel(key)
    ensures CleanRule(key) == key && CleanHost(key) == key && ScriptHost(key) == key
    ensures NormalizeDomain(key) == Some(key)
  {
    LabelIsPlain(key);
    WithoutNothing(key, '*');
    assert KeptEnd(key, Dots, |key|) == |key| && Kept(key, Dots, 0) == 0;
    assert key[..|key|] == key;
    LowerStays(key);
    NormalizePlain(key);
    HostsAgree(key);
  }

  lemma LoneTable(rule: DomainRule, key: string)
    requires Listed(rule, key)
    ensures TcpDomains([rule]) == [key]
  {
    assert KeysOf(rule) == [key];
    assert TcpDomains([rule][1..]) == [];
  }

  lemma LoneCompiled(rule: DomainRule, key: string)
    requires Listed(rule, key)
    ensures Compiled(Script([key], []), Snapshot([rule], [], []))
  {
    LoneTable(rule, key);
    assert TcpRanges([]) == [];
  }

  lemma LoneRoute(rule: DomainRule, host: string, port: nat)
    requires DomainRuleApplies(rule, host, Some(port), Tcp) && ParseIpv4(host) == None
    ensures Route(Snapshot([rule], [], []), host, port, Tcp, false) == Managed(rule.resource.hit)
  {
    assert MatchDomainPorts([rule], host, Some(port), Tcp) == Some(rule.resource.hit);
  }

  lemma LabelIsNoAddress(key: string)
    requires '.' !in key
    ensures ParseIpv4(key) == None && Dotted(key) == -1
  {
    assert IndexFrom(key, '.', 0) == |key|;
  }

  lemma LoneCovered(key: string)
    ensures Covered([key], key) <==> key != PROTO
  {
    assert Covers(key, key) <==> key != PROTO;
  }

  /** One rule of one lower-case label: it is managed, and the script finds it unless its key is `PROTO`. */
  lemma LoneRule(key: string, hit: RouteHit, dns: string -> Option<string>)
    requires LowerLabel(key)
    ensures var s := Snapshot([DomainRule(key, Resource(1, 65535, "tcp", hit))], [], []);
            && Compiled(Script([key], []), s)
            && Route(s, key, 443, Tcp, false) == Managed(hit)
            && (Proxied(Script([key], []), key, dns) <==> key != PROTO)
  {
    var rule := DomainRule(key, Resource(1, 65535, "tcp", hit));
    LabelIsPlain(key);
    LabelIsNoAddress(key);
    assert DomainRuleApplies(rule, key, Some(443), Tcp) by { LabelStays(key); }
    assert Listed(rule, key) by { LabelStays(key); }
    assert ScriptHost(key) == key by { LabelStays(key); }
    LoneCompiled(rule, key);
    LoneRoute(rule, key, 443);
    LoneCovered(key);
  }

  /** So the rule "__proto__" is lost: its host is managed and goes direct. */
  lemma ProtoRuleIsMissed(hit: RouteHit, dns: string -> Option<string>)
    ensures var s := Snapshot([DomainRule(PROTO, Resource(1, 65535, "tcp", hit))], [], []);
            var script := Script([PROTO], []);
            Compiled(script, s) && Route(s, PROTO, 443, Tcp, false) == Managed(hit) && !Proxied(script, PROTO, dns)
  {
    LoneRule(PROTO, hit, dns);
  }
}
