/** Which destinations belong to managed resources. */
module Router {
  import opened Options
  import opened Text

  datatype Protocol = Tcp | Udp | Icmp
  datatype RouteHit = RouteHit(appId: string, nodeGroupId: string)
  datatype Decision = Direct | Managed(hit: RouteHit)

  /** `protocol` is the server's own word; only "all", "tcp", "udp" and "icmp" match anything. */
  datatype Resource = Resource(portMin: nat, portMax: nat, protocol: string, hit: RouteHit)
  datatype DomainRule = DomainRule(domain: string, resource: Resource)
  datatype IpRule = IpRule(ipMin: nat, ipMax: nat, resource: Resource)

  /** The rules stand in whatever order the source's hash map yields them. */
  datatype Snapshot = Snapshot(domains: seq<DomainRule>, ips: seq<IpRule>, nodes: seq<string>)

  predicate ProtocolMatches(rule: string, protocol: Protocol) {
    || rule == "all"
    || (rule == "tcp" && protocol.Tcp?)
    || (rule == "udp" && protocol.Udp?)
    || (rule == "icmp" && protocol.Icmp?)
  }

  predicate PortsMatch(r: Resource, port: nat, protocol: Protocol) {
    protocol.Icmp? || r.portMin <= port <= r.portMax
  }

  function CleanHost(host: string): (h: string) {
    Lower(TrimEnd(host, Dots))
  }

  function CleanRule(domain: string): (d: string) {
    Lower(TrimEnd(Without(domain, '*'), Dots))
  }

  /** Whether the cleaned rule `d` matches the cleaned host `h`. */
  predicate Matches(d: string, h: string) {
    if d != "" && d[0] == '.' then EndsWith(h, d) || h == TrimStart(d, Dots)
    else h == d || EndsWith(h, "." + d)
  }

  predicate DomainMatches(domain: string, host: string) {
    Matches(CleanRule(domain), CleanHost(host))
  }

  /** With no port the range is ignored. */
  predicate DomainRuleApplies(rule: DomainRule, host: string, port: Option<nat>, protocol: Protocol) {
    && ProtocolMatches(rule.resource.protocol, protocol)
    && (port.Some? ==> PortsMatch(rule.resource, port.value, protocol))
    && DomainMatches(rule.domain, host)
  }

  function MatchDomainPorts(rules: seq<DomainRule>, host: string, port: Option<nat>, protocol: Protocol)
    : (r: Option<RouteHit>)
    ensures r.Some? <==> exists rule :: rule in rules && DomainRuleApplies(rule, host, port, protocol)
    ensures r.Some? ==> exists rule :: rule in rules && DomainRuleApplies(rule, host, port, protocol)
                                       && r.value == rule.resource.hit
  {
    if rules == [] then None
    else if DomainRuleApplies(rules[0], host, port, protocol) then Some(rules[0].resource.hit)
    else
      assert rules == [rules[0]] + rules[1..];
      MatchDomainPorts(rules[1..], host, port, protocol)
  }

  predicate IpRuleApplies(rule: IpRule, ip: nat, port: nat, protocol: Protocol) {
    && rule.ipMin <= ip <= rule.ipMax
    && ProtocolMatches(rule.resource.protocol, protocol)
    && PortsMatch(rule.resource, port, protocol)
  }

  function MatchIp(rules: seq<IpRule>, ip: nat, port: nat, protocol: Protocol): (r: Option<RouteHit>)
    ensures r.Some? <==> exists rule :: rule in rules && IpRuleApplies(rule, ip, port, protocol)
    ensures r.Some? ==> exists rule :: rule in rules && IpRuleApplies(rule, ip, port, protocol)
                                       && r.value == rule.resource.hit
  {
    if rules == [] then None
    else if IpRuleApplies(rules[0], ip, port, protocol) then Some(rules[0].resource.hit)
    else
      assert rules == [rules[0]] + rules[1..];
      MatchIp(rules[1..], ip, port, protocol)
  }

  predicate DomainManaged(rules: seq<DomainRule>, host: string, protocol: Protocol) {
    MatchDomainPorts(rules, host, None, protocol).Some?
  }

  predicate IpManagedForTcp(rules: seq<IpRule>, ip: nat) {
    exists rule :: rule in rules && rule.ipMin <= ip <= rule.ipMax && ProtocolMatches(rule.resource.protocol, Tcp)
  }

  /** One decimal octet as the address parser takes it: no needless leading zero. */
  predicate IsOctet(s: string) {
    AllDigits(s) && |s| <= 3 && (|s| > 1 ==> s[0] != '0') && Decimal(s) <= 255
  }

  /** `parse::<Ipv4Addr>`, as the number `u32::from` gives. */
  function ParseIpv4(host: string): (r: Option<nat>) {
    var parts := Split(host, '.');
    if |parts| == 4 && forall i :: 0 <= i < 4 ==> IsOctet(parts[i]) then
      Some(((Decimal(parts[0]) * 256 + Decimal(parts[1])) * 256 + Decimal(parts[2])) * 256 + Decimal(parts[3]))
    else None
  }

  function SplitHostPort(endpoint: string): (r: Option<(string, nat)>) {
    var e := Trim(endpoint, Whitespace);
    var k := LastIndexBefore(e, ':', |e|);
    if k == 0 then None
    else
      var host := Trim(Trim(e[..k - 1], Whitespace), Brackets);
      var port := ParseU16(Trim(e[k..], Whitespace));
      if host == "" || port.None? then None else Some((host, port.value))
  }

  predicate IsNodeEndpoint(nodes: seq<string>, host: string, port: nat) {
    var h := Trim(Trim(host, Whitespace), Brackets);
    exists node :: node in nodes &&
      var e := SplitHostPort(node);
      e.Some? && e.value.1 == port && Lower(e.value.0) == Lower(h)
  }

  /** `ipv6` says whether the standard library takes the host for an IPv6 literal. */
  function Route(s: Snapshot, host: string, port: nat, protocol: Protocol, ipv6: bool): (d: Decision) {
    if IsNodeEndpoint(s.nodes, host, port) || ipv6 then Direct
    else
      var hit := match ParseIpv4(host)
                 case Some(ip) => MatchIp(s.ips, ip, port, protocol)
                 case None => MatchDomainPorts(s.domains, host, Some(port), protocol);
      if hit.Some? then Managed(hit.value) else Direct
  }

  /** A rule that matches some port: its range is not inverted, or ports do not count. */
  predicate HasPort(r: Resource, protocol: Protocol) {
    protocol.Icmp? || r.portMin <= r.portMax
  }

  lemma RuleOnAPort(rules: seq<DomainRule>, rule: DomainRule, host: string, protocol: Protocol)
    requires rule in rules && DomainRuleApplies(rule, host, None, protocol) && HasPort(rule.resource, protocol)
    ensures MatchDomainPorts(rules, host, Some(rule.resource.portMin), protocol).Some?
  {
    assert DomainRuleApplies(rule, host, Some(rule.resource.portMin), protocol);
  }

  lemma PortHasARule(rules: seq<DomainRule>, host: string, port: nat, protocol: Protocol)
    requires MatchDomainPorts(rules, host, Some(port), protocol).Some?
    ensures exists rule :: rule in rules && DomainRuleApplies(rule, host, None, protocol)
                           && HasPort(rule.resource, protocol)
  {
    var rule :| rule in rules && DomainRuleApplies(rule, host, Some(port), protocol);
    assert DomainRuleApplies(rule, host, None, protocol) && HasPort(rule.resource, protocol);
  }

  /** A domain is managed on some port exactly when a rule that has one applies to it. */
  lemma ManagedOnSomePort(rules: seq<DomainRule>, host: string, protocol: Protocol)
    ensures (exists port: nat :: MatchDomainPorts(rules, host, Some(port), protocol).Some?) <==>
            exists rule :: rule in rules && DomainRuleApplies(rule, host, None, protocol)
                           && HasPort(rule.resource, protocol)
  {
    if rule :| rule in rules && DomainRuleApplies(rule, host, None, protocol) && HasPort(rule.resource, protocol) {
      RuleOnAPort(rules, rule, host, protocol);
    }
    if port: nat :| MatchDomainPorts(rules, host, Some(port), protocol).Some? {
      PortHasARule(rules, host, port, protocol);
    }
  }

  /** So a rule for the ports 90 to 80 makes its domain managed on no port. */
  lemma InvertedRange(host: string, hit: RouteHit, port: nat)
    requires DomainMatches(host, host)
    ensures var rule := DomainRule(host, Resource(90, 80, "tcp", hit));
            DomainManaged([rule], host, Tcp) && MatchDomainPorts([rule], host, Some(port), Tcp).None?
  {
    var rule := DomainRule(host, Resource(90, 80, "tcp", hit));
    assert rule in [rule] && DomainRuleApplies(rule, host, None, Tcp);
  }

  lemma {:induction false} SameIpHit(rules: seq<IpRule>, ip: nat, p: nat, q: nat)
    ensures MatchIp(rules, ip, p, Icmp) == MatchIp(rules, ip, q, Icmp)
  {
    if rules != [] { SameIpHit(rules[1..], ip, p, q); }
  }

  lemma {:induction false} SameDomainHit(rules: seq<DomainRule>, host: string, p: nat, q: nat)
    ensures MatchDomainPorts(rules, host, Some(p), Icmp) == MatchDomainPorts(rules, host, Some(q), Icmp)
  {
    if rules != [] { SameDomainHit(rules[1..], host, p, q); }
  }

  /** The port of an ICMP destination decides whether it is a node, and nothing else. */
  lemma IcmpIgnoresPorts(s: Snapshot, host: string, p: nat, q: nat, ipv6: bool)
    ensures Route(s, host, p, Icmp, ipv6) ==
            if IsNodeEndpoint(s.nodes, host, p) then Direct else Route(s.(nodes := []), host, q, Icmp, ipv6)
  {
    match ParseIpv4(host)
    case Some(ip) => SameIpHit(s.ips, ip, p, q);
    case None => SameDomainHit(s.domains, host, p, q);
  }
}
