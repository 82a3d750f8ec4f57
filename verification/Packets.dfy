/** IPv4, UDP and ICMP packets: the in-place builders, the parsers, and what relates them. */
module Packets {
  import opened Bytes
  import opened Checksum
  import opened Options

  datatype Ipv4 = Ipv4(a: byte, b: byte, c: byte, d: byte) {
    function Octets(): (o: seq<byte>) {
      [a, b, c, d]
    }
  }

  datatype Protocol = Tcp | Udp | Icmp

  datatype Error =
    TooShort | NotIpv4 | BadHeader | TransportTooShort | UnsupportedProtocol | NotUdp | BadUdpLength | TooLarge

  datatype Result<+T> = Ok(value: T) | Err(error: Error)

  /** `PacketMeta`; its address type is always 4. */
  datatype Meta = Meta(protocol: Protocol, src: Ipv4, dst: Ipv4, srcPort: u16, dstPort: u16)

  datatype Datagram = Datagram(src: Ipv4, dst: Ipv4, srcPort: u16, dstPort: u16, payload: seq<byte>)

  /** The largest UDP payload an IPv4 packet holds. */
  const MAX_UDP_PAYLOAD := 65507

  // ---- What the builders write --------------------------------------------

  /** The fields of an IPv4 header without options (section 3.1 of RFC 791). */
  datatype IpFields = IpFields(total: u16, ident: u16, proto: byte, checksum: u16, src: Ipv4, dst: Ipv4) {
    /** Byte `i` of the header. */
    function At(i: nat): (b: byte)
      requires i < 20
    {
      if i == 0 then 0x45
      else if i == 2 then total / 0x100
      else if i == 3 then total % 0x100
      else if i == 4 then ident / 0x100
      else if i == 5 then ident % 0x100
      else if i == 8 then 64
      else if i == 9 then proto
      else if i == 10 then checksum / 0x100
      else if i == 11 then checksum % 0x100
      else if 12 <= i < 16 then src.Octets()[i - 12]
      else if 16 <= i then dst.Octets()[i - 16]
      else 0
    }

    function Bytes(): (h: seq<byte>)
      ensures |h| == 20 && forall i :: 0 <= i < 20 ==> h[i] == At(i)
    {
      seq(20, i requires 0 <= i < 20 => At(i))
    }

    /** The fields with the checksum of the header whose checksum field is zero. */
    function Summed(): (f: IpFields) {
      this.(checksum := InternetChecksum(this.(checksum := 0).Bytes()))
    }
  }

  /** The fields of a UDP header (RFC 768). */
  datatype UdpFields = UdpFields(srcPort: u16, dstPort: u16, length: u16, checksum: u16) {
    /** Byte `i` of the header. */
    function At(i: nat): (b: byte)
      requires i < 8
    {
      if i == 0 then srcPort / 0x100
      else if i == 1 then srcPort % 0x100
      else if i == 2 then dstPort / 0x100
      else if i == 3 then dstPort % 0x100
      else if i == 4 then length / 0x100
      else if i == 5 then length % 0x100
      else if i == 6 then checksum / 0x100
      else checksum % 0x100
    }

    function Bytes(): (h: seq<byte>)
      ensures |h| == 8 && forall i :: 0 <= i < 8 ==> h[i] == At(i)
    {
      seq(8, i requires 0 <= i < 8 => At(i))
    }
  }

  function UdpDatagram(srcPort: u16, dstPort: u16, checksum: u16, payload: seq<byte>): (d: seq<byte>)
    requires 8 + |payload| < 0x1_0000
    ensures |d| == 8 + |payload|
  {
    UdpFields(srcPort, dstPort, 8 + |payload|, checksum).Bytes() + payload
  }

  function PseudoHeader(src: Ipv4, dst: Ipv4, length: u16): (p: seq<byte>)
    ensures |p| == 12
  {
    src.Octets() + dst.Octets() + [0, 17] + Be16(length)
  }

  function UdpChecksum(src: Ipv4, dst: Ipv4, udp: seq<byte>): (c: u16)
    requires |udp| < 0x1_0000
    ensures c != 0
  {
    var data := PseudoHeader(src, dst, |udp|) + udp;
    var c := InternetChecksum(if |data| % 2 != 0 then data + [0] else data);
    if c == 0 then 0xFFFF else c
  }

  /** The datagram with its checksum in place. */
  function SummedUdp(d: Datagram): (udp: seq<byte>)
    requires |d.payload| <= MAX_UDP_PAYLOAD
    ensures |udp| == 8 + |d.payload|
  {
    UdpDatagram(d.srcPort, d.dstPort,
                UdpChecksum(d.src, d.dst, UdpDatagram(d.srcPort, d.dstPort, 0, d.payload)), d.payload)
  }

  function UdpPacket(d: Datagram): (packet: seq<byte>)
    requires |d.payload| <= MAX_UDP_PAYLOAD
  {
    IpFields(28 + |d.payload|, 0, 17, 0, d.src, d.dst).Summed().Bytes() + SummedUdp(d)
  }

  /** The text the keepalive carries. */
  const KEEPALIVE: seq<byte> :=
    [0x72, 0x65, 0x61, 0x74, 0x72, 0x75, 0x73, 0x74, 0x20, 0x6B, 0x65, 0x65, 0x70, 0x2D, 0x61, 0x6C, 0x69, 0x76, 0x65]

  /** An ICMP echo request (RFC 792): what follows its checksum, and all of it. */
  function EchoBody(sequence: u16): (m: seq<byte>)
    ensures |m| == 23
  {
    [0x52, 0x41] + Be16(sequence) + KEEPALIVE
  }

  function IcmpEcho(body: seq<byte>, checksum: u16): (m: seq<byte>)
    ensures |m| == 4 + |body|
  {
    seq(4 + |body|, i requires 0 <= i < 4 + |body| =>
          if i == 0 then 8 else if i == 1 then 0
          else if i == 2 then checksum / 0x100 else if i == 3 then checksum % 0x100
          else body[i - 4])
  }

  function SummedEcho(body: seq<byte>): (m: seq<byte>)
    ensures |m| == 4 + |body|
  {
    IcmpEcho(body, InternetChecksum(IcmpEcho(body, 0)))
  }

  function IcmpPacket(src: Ipv4, dst: Ipv4, sequence: u16): (packet: seq<byte>) {
    IpFields(47, sequence, 1, 0, src, dst).Summed().Bytes() + SummedEcho(EchoBody(sequence))
  }

  // ---- The builders -------------------------------------------------------

  /** Copies `bytes` to `at`; the rest of the packet stays as it is. */
  method Put(packet: array<byte>, at: nat, bytes: seq<byte>)
    requires at + |bytes| <= packet.Length
    modifies packet
    ensures forall i :: 0 <= i < packet.Length ==>
              packet[i] == if at <= i < at + |bytes| then bytes[i - at] else old(packet[i])
  {
    forall i | 0 <= i < |bytes| {
      packet[at + i] := bytes[i];
    }
  }

  /** Sets the header fields of a packet whose first 20 bytes are zero. */
  method WriteIpFields(packet: array<byte>, f: IpFields)
    requires packet.Length >= 20 && f.checksum == 0
    requires forall i :: 0 <= i < 20 ==> packet[i] == 0
    modifies packet
    ensures packet[..20] == f.Bytes()
    ensures packet[20..] == old(packet[20..])
  {
    packet[0] := 0x45;
    Put(packet, 2, Be16(f.total));
    Put(packet, 4, Be16(f.ident));
    packet[8] := 64;
    packet[9] := f.proto;
    Put(packet, 12, f.src.Octets());
    Put(packet, 16, f.dst.Octets());
    forall i | 0 <= i < 20 ensures packet[i] == f.At(i) {
    }
  }

  method SumUdp(src: Ipv4, dst: Ipv4, udp: seq<byte>) returns (c: u16)
    requires |udp| < 0x1_0000
    ensures c == UdpChecksum(src, dst, udp)
  {
    var pseudo := PseudoHeader(src, dst, |udp|) + udp;
    if |pseudo| % 2 != 0 {
      pseudo := pseudo + [0];
    }
    var sum := ChecksumWords(pseudo);
    c := if sum == 0 then 0xFFFF else sum;
  }

  method WriteUdpHeader(packet: array<byte>, f: UdpFields)
    requires packet.Length >= 28 && f.checksum == 0
    modifies packet
    ensures packet[..20] == old(packet[..20]) && packet[28..] == old(packet[28..])
    ensures packet[20..28] == f.Bytes()
  {
    Put(packet, 20, Be16(f.srcPort));
    Put(packet, 22, Be16(f.dstPort));
    Put(packet, 24, Be16(f.length));
    packet[26], packet[27] := 0, 0;
    forall k | 20 <= k < 28 ensures packet[k] == f.At(k - 20) {
    }
  }

  /** The datagram behind the IP header, its checksum field still zero. */
  method WriteUdpFields(packet: array<byte>, d: Datagram)
    requires |d.payload| <= MAX_UDP_PAYLOAD && packet.Length == 28 + |d.payload|
    modifies packet
    ensures packet[..20] == old(packet[..20])
    ensures packet[20..] == UdpDatagram(d.srcPort, d.dstPort, 0, d.payload)
  {
    WriteUdpHeader(packet, UdpFields(d.srcPort, d.dstPort, 8 + |d.payload|, 0));
    ghost var header := packet[20..28];
    Put(packet, 28, d.payload);
    assert packet[20..28] == header && packet[28..] == d.payload;
    assert packet[20..] == packet[20..28] + packet[28..];
  }

  lemma UdpStamped(d: Datagram, checksum: u16)
    requires |d.payload| <= MAX_UDP_PAYLOAD
    ensures WithField(UdpDatagram(d.srcPort, d.dstPort, 0, d.payload), 6, checksum)
         == UdpDatagram(d.srcPort, d.dstPort, checksum, d.payload)
  {
    var blank := UdpDatagram(d.srcPort, d.dstPort, 0, d.payload);
    var full := UdpDatagram(d.srcPort, d.dstPort, checksum, d.payload);
    forall i | 0 <= i < |full| ensures WithField(blank, 6, checksum)[i] == full[i] {
    }
  }

  lemma IpStamped(f: IpFields, checksum: u16)
    requires f.checksum == 0
    ensures WithField(f.Bytes(), 10, checksum) == f.(checksum := checksum).Bytes()
  {
    forall i | 0 <= i < 20 ensures WithField(f.Bytes(), 10, checksum)[i] == f.(checksum := checksum).At(i) {
    }
  }

  /** Sums the header and writes its checksum. */
  method StampIpHeader(packet: array<byte>, ghost f: IpFields)
    requires packet.Length >= 20 && f.checksum == 0 && packet[..20] == f.Bytes()
    modifies packet
    ensures packet[..20] == f.Summed().Bytes()
    ensures packet[20..] == old(packet[20..])
  {
    var checksum := ChecksumWords(packet[..20]);
    Put(packet, 10, Be16(checksum));
    IpStamped(f, checksum);
    assert packet[..20] == WithField(old(packet[..20]), 10, checksum);
  }

  method WriteIpHeader(packet: array<byte>, f: IpFields)
    requires packet.Length >= 20 && f.checksum == 0 && packet[..20] == seq(20, _ => 0)
    modifies packet
    ensures packet[..20] == f.Summed().Bytes()
    ensures packet[20..] == old(packet[20..])
  {
    assert forall i :: 0 <= i < 20 ==> packet[i] == packet[..20][i];
    WriteIpFields(packet, f);
    StampIpHeader(packet, f);
  }

  /** Writes `checksum` at `at`, seen from `lo` on. */
  method PutField(packet: array<byte>, lo: nat, at: nat, checksum: u16)
    requires lo + at + 2 <= packet.Length
    modifies packet
    ensures packet[..lo] == old(packet[..lo])
    ensures packet[lo..] == WithField(old(packet[lo..]), at, checksum)
  {
    Put(packet, lo + at, Be16(checksum));
  }

  method BuildUdpIpv4Packet(d: Datagram) returns (r: Result<seq<byte>>)
    ensures r == if |d.payload| <= MAX_UDP_PAYLOAD then Ok(UdpPacket(d)) else Err(TooLarge)
  {
    if 8 + |d.payload| > 0xFFFF || 28 + |d.payload| > 0xFFFF {
      return Err(TooLarge);
    }
    var packet := new byte[28 + |d.payload|](_ => 0);
    WriteIpHeader(packet, IpFields(28 + |d.payload|, 0, 17, 0, d.src, d.dst));
    WriteUdpFields(packet, d);
    var checksum := SumUdp(d.src, d.dst, packet[20..]);
    PutField(packet, 20, 6, checksum);
    UdpStamped(d, checksum);
    r := Ok(packet[..20] + packet[20..]);
  }

  method WriteIcmp(p: array<byte>, sequence: u16)
    requires p.Length == 47 && forall i :: 20 <= i < 47 ==> p[i] == 0
    modifies p
    ensures p[..20] == old(p[..20])
    ensures p[20..] == IcmpEcho(EchoBody(sequence), 0)
  {
    p[20] := 8;
    Put(p, 24, [0x52, 0x41]);
    Put(p, 26, Be16(sequence));
    Put(p, 28, KEEPALIVE);
  }

  lemma IcmpStamped(body: seq<byte>, checksum: u16)
    ensures WithField(IcmpEcho(body, 0), 2, checksum) == IcmpEcho(body, checksum)
  {
  }

  method WriteEcho(p: array<byte>, sequence: u16)
    requires p.Length == 47 && forall i :: 20 <= i < 47 ==> p[i] == 0
    modifies p
    ensures p[..20] == old(p[..20])
    ensures p[20..] == SummedEcho(EchoBody(sequence))
  {
    WriteIcmp(p, sequence);
    var checksum := ChecksumWords(p[20..]);
    PutField(p, 20, 2, checksum);
    IcmpStamped(EchoBody(sequence), checksum);
  }

  method BuildIcmpEchoPacket(src: Ipv4, dst: Ipv4, sequence: u16) returns (packet: seq<byte>)
    ensures packet == IcmpPacket(src, dst, sequence)
  {
    var p := new byte[47](_ => 0);
    WriteEcho(p, sequence);
    WriteIpHeader(p, IpFields(47, sequence, 1, 0, src, dst));
    packet := p[..20] + p[20..];
  }

  // ---- Every built packet verifies ----------------------------------------

  lemma IpHeaderVerifies(f: IpFields)
    requires f.checksum == 0
    ensures Verifies(f.Summed().Bytes())
  {
    var c := InternetChecksum(f.Bytes());
    ChecksumVerifies(f.Bytes(), 10, c);
    IpStamped(f, c);
  }

  /** The pad byte the UDP sum adds to odd input changes nothing. */
  lemma {:induction false} PadSum(data: seq<byte>)
    requires |data| % 2 == 1
    ensures WordSum(data + [0]) == WordSum(data)
  {
    var n := |data| - 1;
    assert data == data[..n] + [data[n]];
    WordSumConcat(data[..n], [data[n]]);
    assert data + [0] == data[..n] + [data[n], 0];
    WordSumConcat(data[..n], [data[n], 0]);
  }

  lemma FieldBehind(front: seq<byte>, data: seq<byte>, at: nat, c: u16)
    requires at + 2 <= |data|
    ensures WithField(front + data, |front| + at, c) == front + WithField(data, at, c)
  {
    assert (front + data)[..|front| + at] == front + data[..at];
    assert (front + data)[|front| + at + 2..] == data[at + 2..];
    Assoc(front, data[..at], Be16(c));
    Assoc(front, data[..at] + Be16(c), data[at + 2..]);
  }

  lemma UdpVerifies(d: Datagram)
    requires |d.payload| <= MAX_UDP_PAYLOAD
    ensures Verifies(PseudoHeader(d.src, d.dst, 8 + |d.payload|) + SummedUdp(d))
  {
    var blank := UdpDatagram(d.srcPort, d.dstPort, 0, d.payload);
    var pseudo := PseudoHeader(d.src, d.dst, |blank|);
    var c := UdpChecksum(d.src, d.dst, blank);
    var data := pseudo + blank;
    if |data| % 2 == 1 {
      PadSum(data);
    }
    assert data[18] == blank[6] == 0 && data[19] == blank[7] == 0;
    ChecksumVerifies(data, 18, c);
    FieldBehind(pseudo, blank, 6, c);
    UdpStamped(d, c);
  }

  /**
   * A receiver accepts every built datagram: its IP header and its datagram
   * with pseudo-header both sum to all ones, and its checksum field is never
   * zero, which RFC 768 reserves for "no checksum".
   */
  lemma UdpPacketVerifies(d: Datagram)
    requires |d.payload| <= MAX_UDP_PAYLOAD
    ensures var p := UdpPacket(d);
            && |p| == 28 + |d.payload|
            && Verifies(p[..20])
            && Verifies(PseudoHeader(d.src, d.dst, |p| - 20) + p[20..])
            && (p[26] != 0 || p[27] != 0)
  {
    var f := IpFields(28 + |d.payload|, 0, 17, 0, d.src, d.dst);
    var p := UdpPacket(d);
    assert p[..20] == f.Summed().Bytes() && p[20..] == SummedUdp(d);
    IpHeaderVerifies(f);
    UdpVerifies(d);
    assert p[26] == SummedUdp(d)[6] && p[27] == SummedUdp(d)[7];
  }

  lemma EchoVerifies(body: seq<byte>)
    ensures Verifies(SummedEcho(body))
  {
    var blank := IcmpEcho(body, 0);
    ChecksumVerifies(blank, 2, InternetChecksum(blank));
    IcmpStamped(body, InternetChecksum(blank));
  }

  /** So does every keepalive, whose ICMP message has an odd length. */
  lemma IcmpPacketVerifies(src: Ipv4, dst: Ipv4, sequence: u16)
    ensures var p := IcmpPacket(src, dst, sequence);
            |p| == 47 && Verifies(p[..20]) && Verifies(p[20..])
  {
    var header, echo := IpFields(47, sequence, 1, 0, src, dst).Summed().Bytes(), SummedEcho(EchoBody(sequence));
    IpHeaderVerifies(IpFields(47, sequence, 1, 0, src, dst));
    EchoVerifies(EchoBody(sequence));
    assert (header + echo)[..20] == header && (header + echo)[20..] == echo;
  }

  // ---- Parsing ------------------------------------------------------------

  function SourceOf(packet: seq<byte>): (a: Ipv4)
    requires |packet| >= 20
  {
    Ipv4(packet[12], packet[13], packet[14], packet[15])
  }

  function DestinationOf(packet: seq<byte>): (a: Ipv4)
    requires |packet| >= 20
  {
    Ipv4(packet[16], packet[17], packet[18], packet[19])
  }

  function ParsePacketMeta(packet: seq<byte>): (r: Result<Meta>) {
    if |packet| < 20 then Err(TooShort)
    else if packet[0] / 16 != 4 then Err(NotIpv4)
    else
      var ihl := packet[0] % 16 * 4;
      var proto := packet[9];
      if |packet| < ihl then Err(BadHeader)
      else if proto == 6 || proto == 17 then
        if |packet| < ihl + 4 then Err(TransportTooShort)
        else Ok(Meta(if proto == 6 then Tcp else Udp, SourceOf(packet), DestinationOf(packet),
                     FromBe16(packet[ihl], packet[ihl + 1]), FromBe16(packet[ihl + 2], packet[ihl + 3])))
      else if proto == 1 then Ok(Meta(Icmp, SourceOf(packet), DestinationOf(packet), 0, 0))
      else Err(UnsupportedProtocol)
  }

  function ParseIpv4UdpPacket(packet: seq<byte>): (r: Result<Datagram>) {
    if |packet| < 28 then Err(TooShort)
    else if packet[0] / 16 != 4 then Err(NotIpv4)
    else
      var ihl := packet[0] % 16 * 4;
      if |packet| < ihl + 8 then Err(TransportTooShort)
      else if packet[9] != 17 then Err(NotUdp)
      else
        var length := FromBe16(packet[ihl + 4], packet[ihl + 5]);
        if |packet| < ihl + length || length < 8 then Err(BadUdpLength)
        else Ok(Datagram(SourceOf(packet), DestinationOf(packet),
                         FromBe16(packet[ihl], packet[ihl + 1]), FromBe16(packet[ihl + 2], packet[ihl + 3]),
                         packet[ihl + 8..ihl + length]))
  }

  function UdpPayloadIfMatch(packet: seq<byte>, local: Ipv4, localPort: u16, remote: Ipv4, remotePort: u16)
    : (r: Option<seq<byte>>)
    ensures forall payload :: r == Some(payload) <==>
              ParseIpv4UdpPacket(packet) == Ok(Datagram(remote, local, remotePort, localPort, payload))
  {
    match ParseIpv4UdpPacket(packet)
    case Err(_) => None
    case Ok(d) =>
      if d.src == remote && d.srcPort == remotePort && d.dst == local && d.dstPort == localPort
      then Some(d.payload) else None
  }

  /** What the parsers see of a built packet's headers. */
  lemma HeaderBytes(d: Datagram)
    requires |d.payload| <= MAX_UDP_PAYLOAD
    ensures var p := UdpPacket(d);
            && |p| == 28 + |d.payload| && p[0] == 0x45 && p[9] == 17
            && SourceOf(p) == d.src && DestinationOf(p) == d.dst
            && FromBe16(p[20], p[21]) == d.srcPort && FromBe16(p[22], p[23]) == d.dstPort
            && FromBe16(p[24], p[25]) == 8 + |d.payload|
            && p[28..] == d.payload
  {
    var p := UdpPacket(d);
    var h := IpFields(28 + |d.payload|, 0, 17, 0, d.src, d.dst).Summed();
    assert forall i :: 0 <= i < 20 ==> p[i] == h.Bytes()[i] == h.At(i);
    var u := SummedUdp(d);
    assert forall i :: 0 <= i < 6 ==> p[20 + i] == u[i];
    assert p[28..] == u[8..] == d.payload;
  }

  /** Datagrams round trip through the builder and both parsers. */
  lemma UdpRoundTrip(d: Datagram)
    requires |d.payload| <= MAX_UDP_PAYLOAD
    ensures ParseIpv4UdpPacket(UdpPacket(d)) == Ok(d)
    ensures ParsePacketMeta(UdpPacket(d)) == Ok(Meta(Udp, d.src, d.dst, d.srcPort, d.dstPort))
  {
    HeaderBytes(d);
    var p := UdpPacket(d);
    assert p[28..28 + |d.payload|] == p[28..];
  }

  lemma IcmpMeta(src: Ipv4, dst: Ipv4, sequence: u16)
    ensures ParsePacketMeta(IcmpPacket(src, dst, sequence)) == Ok(Meta(Icmp, src, dst, 0, 0))
  {
    var p := IcmpPacket(src, dst, sequence);
    var h := IpFields(47, sequence, 1, 0, src, dst).Summed();
    assert forall i :: 0 <= i < 20 ==> p[i] == h.Bytes()[i] == h.At(i);
  }
}
