/**
 * The data envelopes of the L3 tunnel: token, reserved bytes, packet count and
 * length-prefixed packets, as they are built, read off the stream and decoded.
 */
module L3Envelope {
  import opened Bytes

  datatype DataMode = Token | Len

  datatype Error = PayloadTooShort | TokenOverflow | LengthOverflow | DataOverflow

  datatype Result<+T> = Ok(value: T) | Err(error: Error)

  /** Packets found in a region and what is left behind them. */
  datatype Parsed = Parsed(packets: seq<seq<byte>>, rest: seq<byte>)

  /** The longest payload that is framed by its length; a longer one is read as an envelope. */
  const MAX_LENGTH_FRAMED := 4096

  // ---- Building -----------------------------------------------------------

  /** `as u8` and `as u16`: the low bits of a length. */
  function Low8(n: nat): (b: byte) {
    if n < 0x100 then n else n % 0x100
  }

  function Low16(n: nat): (w: u16) {
    if n < 0x1_0000 then n else n % 0x1_0000
  }

  /** One length-prefixed packet. */
  function Prefixed(packet: seq<byte>): (b: seq<byte>) {
    Be16(Low16(|packet|)) + packet
  }

  function PacketRegion(packets: seq<seq<byte>>): (b: seq<byte>) {
    if packets == [] then [] else Prefixed(packets[0]) + PacketRegion(packets[1..])
  }

  /** What precedes the packets, byte by byte. */
  function HeadAt(token: seq<byte>, count: nat, i: nat): (b: byte) {
    if i == 0 then Low8(|token|)
    else if i <= |token| then token[i - 1]
    else if i == |token| + 3 then Low8(count)
    else 0
  }

  function Head(token: seq<byte>, count: nat): (h: seq<byte>)
    ensures |h| == |token| + 4 && forall i :: 0 <= i < |h| ==> h[i] == HeadAt(token, count, i)
  {
    seq(|token| + 4, i requires i >= 0 => HeadAt(token, count, i))
  }

  function Envelope(token: seq<byte>, packets: seq<seq<byte>>): (e: seq<byte>) {
    Head(token, |packets|) + PacketRegion(packets)
  }

  /** Every length fits the field that carries it. */
  predicate Fits(token: seq<byte>, packets: seq<seq<byte>>) {
    |token| < 0x100 && |packets| < 0x100 && forall i :: 0 <= i < |packets| ==> |packets[i]| < 0x1_0000
  }

  lemma {:induction false} RegionAppend(a: seq<seq<byte>>, p: seq<byte>)
    ensures PacketRegion(a + [p]) == PacketRegion(a) + Prefixed(p)
  {
    if a == [] {
      assert a + [p] == [p];
      assert PacketRegion([p]) == Prefixed(p) + PacketRegion([]);
    } else {
      assert (a + [p])[1..] == a[1..] + [p];
      RegionAppend(a[1..], p);
      Assoc(Prefixed(a[0]), PacketRegion(a[1..]), Prefixed(p));
    }
  }

  method BuildDataPayload(token: seq<byte>, packets: seq<seq<byte>>) returns (payload: seq<byte>)
    ensures payload == [0x05, 0x14] + Envelope(token, packets)
  {
    var head := [Low8(|token|)] + token + [0, 0] + [Low8(|packets|)];
    assert head == Head(token, |packets|);
    head := [0x05, 0x14] + head;
    payload := head;
    for i := 0 to |packets|
      invariant payload == head + PacketRegion(packets[..i])
    {
      assert packets[..i + 1] == packets[..i] + [packets[i]];
      RegionAppend(packets[..i], packets[i]);
      Assoc(head, PacketRegion(packets[..i]), Prefixed(packets[i]));
      payload := payload + Prefixed(packets[i]);
    }
    assert packets[..|packets|] == packets;
    Assoc([0x05, 0x14], Head(token, |packets|), PacketRegion(packets));
  }

  // ---- Decoding -----------------------------------------------------------

  function ParsePackets(region: seq<byte>, count: nat): (r: Result<Parsed>)
    decreases count
  {
    if count == 0 then Ok(Parsed([], region))
    else if |region| < 2 then Err(LengthOverflow)
    else
      var n := FromBe16(region[0], region[1]);
      if |region| < 2 + n then Err(DataOverflow)
      else
        match ParsePackets(region[2 + n..], count - 1)
        case Err(e) => Err(e)
        case Ok(p) => Ok(Parsed([region[2..2 + n]] + p.packets, p.rest))
  }

  /** `parse_data_payload`, with the bytes it leaves unread. */
  function ParseEnvelope(payload: seq<byte>): (r: Result<Parsed>) {
    if |payload| < 4 then Err(PayloadTooShort)
    else
      var idx := payload[0] as int + 1;
      if |payload| < idx + 3 then Err(TokenOverflow)
      else ParsePackets(payload[idx + 3..], payload[idx + 2])
  }

  /** What the loop has found so far in front of what the rest will give. */
  function Behind(found: seq<seq<byte>>, r: Result<Parsed>): (whole: Result<seq<seq<byte>>>) {
    match r
    case Err(e) => Err(e)
    case Ok(p) => Ok(found + p.packets)
  }

  /** Where the packet behind `idx` ends. */
  function PacketEnd(payload: seq<byte>, idx: nat): (r: Result<nat>) {
    if |payload| < idx + 2 then Err(LengthOverflow)
    else
      var n := FromBe16(payload[idx], payload[idx + 1]) as int;
      if |payload| < idx + 2 + n then Err(DataOverflow) else Ok(idx + 2 + n)
  }

  lemma ParseStep(found: seq<seq<byte>>, payload: seq<byte>, idx: nat, count: nat)
    requires count > 0 && idx <= |payload|
    ensures PacketEnd(payload, idx).Err? ==>
              Behind(found, ParsePackets(payload[idx..], count)) == Err(PacketEnd(payload, idx).error)
    ensures PacketEnd(payload, idx).Ok? ==>
              var end := PacketEnd(payload, idx).value;
              Behind(found, ParsePackets(payload[idx..], count)) ==
              Behind(found + [payload[idx + 2..end]], ParsePackets(payload[end..], count - 1))
  {
    if PacketEnd(payload, idx).Ok? {
      var end := PacketEnd(payload, idx).value;
      var packet := payload[idx + 2..end];
      assert payload[idx..][2..end - idx] == packet;
      assert payload[idx..][end - idx..] == payload[end..];
      var tail := ParsePackets(payload[end..], count - 1);
      if tail.Ok? { Assoc(found, [packet], tail.value.packets); }
    }
  }

  method ParseLoop(payload: seq<byte>, start: nat, count: nat) returns (r: Result<seq<seq<byte>>>)
    requires start <= |payload|
    ensures r == Behind([], ParsePackets(payload[start..], count))
  {
    var idx := start;
    var packets: seq<seq<byte>> := [];
    ghost var whole := Behind([], ParsePackets(payload[start..], count));
    for i := 0 to count
      invariant start <= idx <= |payload|
      invariant whole == Behind(packets, ParsePackets(payload[idx..], count - i))
    {
      var end := PacketEnd(payload, idx);
      ParseStep(packets, payload, idx, count - i);
      if end.Err? {
        return Err(end.error);
      }
      packets := packets + [payload[idx + 2..end.value]];
      idx := end.value;
    }
    assert packets + [] == packets;
    r := Ok(packets);
  }

  /** The loop over the payload, as the code runs it. */
  method ParseDataPayload(payload: seq<byte>) returns (r: Result<seq<seq<byte>>>)
    ensures r == Behind([], ParseEnvelope(payload))
  {
    if |payload| < 4 {
      return Err(PayloadTooShort);
    }
    var idx := 1 + payload[0] as int;
    if |payload| < idx + 3 {
      return Err(TokenOverflow);
    }
    r := ParseLoop(payload, idx + 3, payload[idx + 2]);
  }

  lemma PrefixedThen(packet: seq<byte>, inner: seq<byte>)
    requires |packet| >= 2
    ensures var region := packet + inner;
            && region[0] == packet[0] && region[1] == packet[1]
            && region[2..|packet|] == packet[2..] && region[|packet|..] == inner
  {
  }

  lemma ParseOne(region: seq<byte>, p: seq<byte>, tail: seq<byte>, count: nat)
    requires |region| == 2 + |p| + |tail| && FromBe16(region[0], region[1]) == |p|
    requires region[2..2 + |p|] == p && region[2 + |p|..] == tail
    requires count > 0 && ParsePackets(tail, count - 1).Ok?
    ensures var inner := ParsePackets(tail, count - 1).value;
            ParsePackets(region, count) == Ok(Parsed([p] + inner.packets, inner.rest))
  {
  }

  lemma PrefixedBytes(p: seq<byte>)
    requires |p| < 0x1_0000
    ensures var b := Prefixed(p); |b| == 2 + |p| && FromBe16(b[0], b[1]) == |p| && b[2..] == p
  {
  }

  lemma ParsePrefixed(p: seq<byte>, tail: seq<byte>, count: nat)
    requires |p| < 0x1_0000 && count > 0 && ParsePackets(tail, count - 1).Ok?
    ensures var inner := ParsePackets(tail, count - 1).value;
            ParsePackets(Prefixed(p) + tail, count) == Ok(Parsed([p] + inner.packets, inner.rest))
  {
    PrefixedBytes(p);
    PrefixedThen(Prefixed(p), tail);
    ParseOne(Prefixed(p) + tail, p, tail, count);
  }

  lemma {:induction false} ParseRegion(packets: seq<seq<byte>>, rest: seq<byte>)
    requires forall i :: 0 <= i < |packets| ==> |packets[i]| < 0x1_0000
    ensures ParsePackets(PacketRegion(packets) + rest, |packets|) == Ok(Parsed(packets, rest))
  {
    if packets == [] {
      assert PacketRegion(packets) + rest == rest;
    } else {
      var p, more := packets[0], packets[1..];
      ParseRegion(more, rest);
      Assoc(Prefixed(p), PacketRegion(more), rest);
      ParsePrefixed(p, PacketRegion(more) + rest, |packets|);
      assert [p] + more == packets;
    }
  }

  lemma HeadFits(token: seq<byte>, count: nat)
    requires |token| < 0x100 && count < 0x100
    ensures Head(token, count)[0] == |token| && Head(token, count)[|token| + 3] == count
  {
  }

  lemma HeadThenRegion(head: seq<byte>, region: seq<byte>)
    requires |head| >= 4 && |head| == head[0] as int + 4
    ensures ParseEnvelope(head + region) == ParsePackets(region, head[|head| - 1])
  {
    assert (head + region)[|head|..] == region;
  }

  /** Within the field limits the decoder gives back the packets and reads every byte. */
  lemma EnvelopeRoundTrip(token: seq<byte>, packets: seq<seq<byte>>)
    requires Fits(token, packets)
    ensures ParseEnvelope(Envelope(token, packets)) == Ok(Parsed(packets, []))
  {
    var head, region := Head(token, |packets|), PacketRegion(packets);
    HeadFits(token, |packets|);
    HeadThenRegion(head, region);
    assert ParsePackets(region, |packets|) == Ok(Parsed(packets, [])) by {
      ParseRegion(packets, []);
      assert region + [] == region;
    }
  }

  // ---- Raw IP packets in length-framed data -------------------------------

  predicate IsCompleteIpPacket(packet: seq<byte>) {
    if packet == [] then false
    else if packet[0] / 16 == 4 && |packet| >= 20 then
      var header, total := packet[0] % 16 * 4, FromBe16(packet[2], packet[3]);
      header >= 20 && total >= header && total <= |packet|
    else if packet[0] / 16 == 6 && |packet| >= 40 then
      40 + FromBe16(packet[4], packet[5]) <= |packet|
    else false
  }

  function DecodeL3DataPayload(payload: seq<byte>, mode: DataMode): (r: Result<seq<seq<byte>>>) {
    if mode.Len? && IsCompleteIpPacket(payload) then Ok([payload])
    else
      match ParseEnvelope(payload)
      case Err(e) => Err(e)
      case Ok(p) => Ok(p.packets)
  }

  lemma {:induction false} RegionLonger(packets: seq<seq<byte>>, i: nat)
    requires i < |packets|
    ensures |packets[i]| < |PacketRegion(packets)|
  {
    if i > 0 {
      RegionLonger(packets[1..], i - 1);
    }
  }

  lemma EnvelopeShape(token: seq<byte>, packets: seq<seq<byte>>)
    requires Fits(token, packets)
    ensures Envelope(token, packets) != [] && Envelope(token, packets)[0] == |token|
    ensures |packets| > 0 ==> |packets[0]| < |Envelope(token, packets)|
  {
    var head, region := Head(token, |packets|), PacketRegion(packets);
    HeadFits(token, |packets|);
    assert (head + region)[0] == head[0];
    if |packets| > 0 {
      RegionLonger(packets, 0);
    }
  }

  /** Where the first bytes of an envelope come from. */
  lemma EnvelopeBytes(token: seq<byte>, packets: seq<seq<byte>>)
    requires |token| < 0x100
    ensures var e := Envelope(token, packets);
            |e| >= |token| + 4 && e[0] == |token| && forall i :: 0 < i <= |token| ==> e[i] == token[i - 1]
  {
    var head := Head(token, |packets|);
    assert forall i :: 0 <= i < |head| ==> (head + PacketRegion(packets))[i] == head[i];
  }

  /** An envelope of `length` bytes with this token passes for an IP packet. */
  predicate Mistakable(token: seq<byte>, length: nat) {
    || (69 <= |token| < 80 && |token| % 16 * 4 <= FromBe16(token[1], token[2]) <= length)
    || (96 <= |token| < 112 && 40 + FromBe16(token[3], token[4]) as int <= length)
  }

  lemma MistakenExactly(token: seq<byte>, packets: seq<seq<byte>>)
    requires |token| < 0x100
    ensures var e := Envelope(token, packets); IsCompleteIpPacket(e) <==> Mistakable(token, |e|)
  {
    EnvelopeBytes(token, packets);
  }

  /**
   * A length-framed envelope is decoded to its packets exactly when it does
   * not read as a complete IP packet, which is decided by its token and its
   * length alone.
   */
  lemma LengthFramedEnvelope(token: seq<byte>, packets: seq<seq<byte>>)
    requires Fits(token, packets)
    ensures var e := Envelope(token, packets);
            DecodeL3DataPayload(e, Len) == Ok(packets) <==> !Mistakable(token, |e|)
  {
    EnvelopeRoundTrip(token, packets);
    EnvelopeShape(token, packets);
    MistakenExactly(token, packets);
  }

  /** The token lengths 69..79 and 96..111 are exact: each has a token that is mistaken. */
  lemma MistakenToken(n: nat, packets: seq<seq<byte>>) returns (token: seq<byte>)
    requires 69 <= n < 80 || 96 <= n < 112
    ensures |token| == n && IsCompleteIpPacket(Envelope(token, packets))
  {
    var low: byte := if n < 80 then n % 16 * 4 else 0;
    token := seq(n, i => if i == 2 then low else 0);
    EnvelopeBytes(token, packets);
    MistakenExactly(token, packets);
  }

  /** A printable token is never mistaken in an envelope short enough to be framed by length. */
  lemma PrintableToken(token: seq<byte>, packets: seq<seq<byte>>)
    requires Fits(token, packets) && |Envelope(token, packets)| <= MAX_LENGTH_FRAMED
    requires forall i :: 0 <= i < |token| ==> token[i] >= 0x20
    ensures DecodeL3DataPayload(Envelope(token, packets), Len) == Ok(packets)
  {
    LengthFramedEnvelope(token, packets);
    if |token| > 4 {
      assert token[1] >= 0x20 && token[3] >= 0x20;
    }
  }
}
