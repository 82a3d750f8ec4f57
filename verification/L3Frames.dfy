/**
 * The frames of an L3 stream: how they are read under any schedule of short
 * reads and timeouts, and which packets they hand to the tunnel's reader.
 */
module L3Frames {
  import opened Bytes
  import opened Transport
  import opened L3Envelope

  datatype Frame = Frame(cmd: byte, status: byte, payload: seq<byte>, mode: DataMode)

  datatype FrameError = Cut(error: StreamError) | BadHeader(h0: byte, h1: byte)

  /** Something taken off the front of the arriving bytes. */
  datatype Taken<+T> = Took(value: T, rest: seq<byte>) | Broken(error: FrameError)

  const AUTH: byte := 0x93
  const DATA: byte := 0x94
  const VIRTUAL_IPS: byte := 0x96

  // ---- Frames as functions of the arriving bytes --------------------------

  function TakeBytes(bytes: seq<byte>, n: nat, end: Ending): (r: Taken<seq<byte>>)
    ensures r.Took? ==> |r.value| == n && |r.rest| == |bytes| - n
  {
    if |bytes| < n then Broken(FrameError.Cut(ReadError(bytes, end))) else Took(bytes[..n], bytes[n..])
  }

  /** One read after another, their bytes put together. */
  function TakeMore(first: Taken<seq<byte>>, n: nat, end: Ending): (r: Taken<seq<byte>>)
    ensures r.Took? ==> first.Took? && |r.value| == |first.value| + n && |r.rest| <= |first.rest|
  {
    match first
    case Broken(e) => Broken(e)
    case Took(a, rest) =>
      match TakeBytes(rest, n, end)
      case Broken(e) => Broken(e)
      case Took(b, rest') => Took(a + b, rest')
  }

  /** One packet with its length bytes. */
  function TakePrefixed(bytes: seq<byte>, end: Ending): (r: Taken<seq<byte>>)
    ensures r.Took? ==> |r.value| >= 2 && |r.value| == 2 + FromBe16(r.value[0], r.value[1]) as int
    ensures r.Took? ==> |r.rest| <= |bytes|
  {
    match TakeBytes(bytes, 2, end)
    case Broken(e) => Broken(e)
    case Took(len, rest) => TakeMore(Took(len, rest), FromBe16(len[0], len[1]), end)
  }

  function TakeRegion(bytes: seq<byte>, count: nat, end: Ending): (r: Taken<seq<byte>>)
    ensures r.Took? ==> |r.rest| <= |bytes|
    decreases count
  {
    if count == 0 then Took([], bytes)
    else
      match TakePrefixed(bytes, end)
      case Broken(e) => Broken(e)
      case Took(packet, rest) =>
        match TakeRegion(rest, count - 1, end)
        case Broken(e) => Broken(e)
        case Took(region, rest') => Took(packet + region, rest')
  }

  /** Token, reserved bytes and packet count. */
  function TakeHead(bytes: seq<byte>, t: nat, end: Ending): (r: Taken<seq<byte>>)
    ensures r.Took? ==> |r.value| == t + 3 && |r.rest| <= |bytes|
  {
    TakeMore(TakeMore(TakeBytes(bytes, t, end), 2, end), 1, end)
  }

  datatype Response = Response(payload: seq<byte>, mode: DataMode)

  function TakeEnvelope(t: byte, bytes: seq<byte>, end: Ending): (r: Taken<Response>)
    ensures r.Took? ==> |r.rest| <= |bytes| && r.value.mode.Token?
  {
    match TakeHead(bytes, t, end)
    case Broken(e) => Broken(e)
    case Took(head, rest) =>
      match TakeRegion(rest, head[t as int + 2], end)
      case Broken(e) => Broken(e)
      case Took(region, rest') => Took(Response([t] + head + region, Token), rest')
  }

  /**
   * `read_data_resp_payload`. In token mode the second of the two bytes peeked
   * at is dropped.
   */
  function TakeResponse(bytes: seq<byte>, end: Ending): (r: Taken<Response>)
    ensures r.Took? ==> |r.rest| < |bytes|
  {
    match TakeBytes(bytes, 2, end)
    case Broken(e) => Broken(e)
    case Took(peek, rest) =>
      var n := FromBe16(peek[0], peek[1]);
      if 0 < n <= MAX_LENGTH_FRAMED then
        match TakeBytes(rest, n, end)
        case Broken(e) => Broken(e)
        case Took(payload, rest') => Took(Response(payload, Len), rest')
      else TakeEnvelope(peek[0], rest, end)
  }

  /** What follows a frame's two header bytes. */
  function TakeFrame(cmd: byte, bytes: seq<byte>, end: Ending): (r: Taken<Frame>)
    ensures r.Took? ==> |r.rest| < |bytes|
  {
    if cmd == AUTH || cmd == VIRTUAL_IPS then
      match TakeBytes(bytes, 3, end)
      case Broken(e) => Broken(e)
      case Took(s, rest) =>
        match TakeBytes(rest, FromBe16(s[1], s[2]), end)
        case Broken(e) => Broken(e)
        case Took(payload, rest') => Took(Frame(cmd, s[0], payload, Len), rest')
    else if cmd == DATA then
      match TakeResponse(bytes, end)
      case Broken(e) => Broken(e)
      case Took(r, rest) => Took(Frame(DATA, 0, r.payload, r.mode), rest)
    else
      match TakeBody(bytes, end)
      case Cut(e) => Broken(FrameError.Cut(e))
      case Body(payload, rest) => Took(Frame(cmd, 0, payload, Len), rest)
  }

  /** The next frame; status frames before it are passed over. */
  function NextFrame(bytes: seq<byte>, end: Ending): (r: Taken<Frame>)
    ensures r.Took? ==> |r.rest| < |bytes|
    decreases |bytes|
  {
    match TakeBytes(bytes, 2, end)
    case Broken(e) => Broken(e)
    case Took(h, rest) =>
      if h[0] == 0x05 then TakeFrame(h[1], rest, end)
      else if h[0] == 0x53 && h[1] == 0x00 then
        match TakeBody(rest, end)
        case Cut(e) => Broken(FrameError.Cut(e))
        case Body(_, rest') => NextFrame(rest', end)
      else Broken(BadHeader(h[0], h[1]))
  }

  /** Every frame of a stream, up to its first error. */
  function Frames(bytes: seq<byte>, end: Ending): (frames: seq<Frame>)
    decreases |bytes|
  {
    match NextFrame(bytes, end)
    case Broken(_) => []
    case Took(f, rest) => [f] + Frames(rest, end)
  }

  function PacketsOf(f: Frame): (packets: seq<seq<byte>>) {
    if f.cmd != DATA then []
    else
      match DecodeL3DataPayload(f.payload, f.mode)
      case Err(_) => []
      case Ok(packets) => packets
  }

  /** The packets the reader is owed for a sequence of frames. */
  function Packets(frames: seq<Frame>): (packets: seq<seq<byte>>) {
    if frames == [] then [] else PacketsOf(frames[0]) + Packets(frames[1..])
  }

  // ---- Token mode ---------------------------------------------------------

  lemma {:induction false} RegionParses(bytes: seq<byte>, count: nat, end: Ending)
    requires TakeRegion(bytes, count, end).Took?
    ensures var r := ParsePackets(TakeRegion(bytes, count, end).value, count); r.Ok? && r.value.rest == []
    decreases count
  {
    if count > 0 {
      var first := TakePrefixed(bytes, end);
      RegionParses(first.rest, count - 1, end);
      var packet, inner := first.value, TakeRegion(first.rest, count - 1, end).value;
      PrefixedThen(packet, inner);
      ParseOne(packet + inner, packet[2..], inner, count);
    }
  }

  lemma EnvelopeParses(t: byte, head: seq<byte>, region: seq<byte>)
    requires |head| == t as int + 3
    ensures ParseEnvelope([t] + head + region) == ParsePackets(region, head[t as int + 2])
  {
    HeadThenRegion([t] + head, region);
  }

  /** Every token-mode payload read off the stream decodes without error and is used up exactly. */
  lemma TokenPayloadDecodes(t: byte, bytes: seq<byte>, end: Ending)
    requires TakeEnvelope(t, bytes, end).Took?
    ensures var r := ParseEnvelope(TakeEnvelope(t, bytes, end).value.payload); r.Ok? && r.value.rest == []
  {
    var head := TakeHead(bytes, t, end);
    var count := head.value[t as int + 2];
    RegionParses(head.rest, count, end);
    EnvelopeParses(t, head.value, TakeRegion(head.rest, count, end).value);
  }

  /**
   * A printable token is safe: whenever the payload read in length mode is an
   * envelope with such a token, its packets are decoded.
   */
  lemma PrintableEnvelopeDecodes(bytes: seq<byte>, end: Ending, token: seq<byte>, packets: seq<seq<byte>>)
    requires TakeResponse(bytes, end).Took? && TakeResponse(bytes, end).value == Response(Envelope(token, packets), Len)
    requires Fits(token, packets) && forall i :: 0 <= i < |token| ==> token[i] >= 0x20
    ensures var r := TakeResponse(bytes, end).value; DecodeL3DataPayload(r.payload, r.mode) == Ok(packets)
  {
    PrintableToken(token, packets);
  }

  // ---- Reading ------------------------------------------------------------

  datatype Read<+T> = Whole(value: T) | Lost(error: FrameError)

  /** What a read of the stream gives, and where it leaves the stream. */
  ghost predicate Matches<T>(r: Read<T>, taken: Taken<T>, ahead: seq<byte>, end: Ending, endBefore: Ending) {
    match taken
    case Broken(e) => r == Lost(e)
    case Took(v, rest) => r == Whole(v) && ahead == rest && end == endBefore
  }

  method ReadBytes(stream: Stream, n: nat) returns (r: Read<seq<byte>>)
    modifies stream
    ensures Matches(r, TakeBytes(old(stream.Ahead()), n, old(stream.End())),
                    stream.Ahead(), stream.End(), old(stream.End()))
    ensures Left(stream.script) <= old(Left(stream.script))
  {
    var exact := stream.ReadTunnelExactBlocking(n);
    r := if exact.Short? then Lost(FrameError.Cut(exact.error)) else Whole(exact.data);
  }

  method ReadPrefixed(stream: Stream) returns (r: Read<seq<byte>>)
    modifies stream
    ensures Matches(r, TakePrefixed(old(stream.Ahead()), old(stream.End())),
                    stream.Ahead(), stream.End(), old(stream.End()))
    ensures Left(stream.script) <= old(Left(stream.script))
  {
    var len := ReadBytes(stream, 2);
    if len.Lost? {
      return len;
    }
    r := ReadBytes(stream, FromBe16(len.value[0], len.value[1]));
    if r.Whole? {
      r := Whole(len.value + r.value);
    }
  }

  function Behind(found: seq<byte>, r: Taken<seq<byte>>): (whole: Taken<seq<byte>>) {
    match r
    case Broken(e) => Broken(e)
    case Took(more, rest) => Took(found + more, rest)
  }

  lemma RegionStep(found: seq<byte>, bytes: seq<byte>, count: nat, end: Ending)
    requires count > 0
    ensures var first := TakePrefixed(bytes, end);
            Behind(found, TakeRegion(bytes, count, end)) ==
            if first.Broken? then Broken(first.error)
            else Behind(found + first.value, TakeRegion(first.rest, count - 1, end))
  {
    var first := TakePrefixed(bytes, end);
    if first.Took? {
      var more := TakeRegion(first.rest, count - 1, end);
      if more.Took? { Assoc(found, first.value, more.value); }
    }
  }

  /** One packet more behind those found; `whole` is what the region comes to. */
  method ReadNext(stream: Stream, found: seq<byte>, ghost count: nat, ghost whole: Taken<seq<byte>>)
    returns (r: Read<seq<byte>>)
    requires count > 0 && whole == Behind(found, TakeRegion(stream.Ahead(), count, stream.End()))
    modifies stream
    ensures r.Lost? ==> whole == Broken(r.error)
    ensures r.Whole? ==> whole == Behind(r.value, TakeRegion(stream.Ahead(), count - 1, stream.End()))
    ensures r.Whole? ==> stream.End() == old(stream.End())
    ensures Left(stream.script) <= old(Left(stream.script))
  {
    RegionStep(found, stream.Ahead(), count, stream.End());
    r := ReadPrefixed(stream);
    if r.Whole? {
      r := Whole(found + r.value);
    }
  }

  method ReadRegion(stream: Stream, count: nat) returns (r: Read<seq<byte>>)
    modifies stream
    ensures Matches(r, Behind([], TakeRegion(old(stream.Ahead()), count, old(stream.End()))),
                    stream.Ahead(), stream.End(), old(stream.End()))
    ensures Left(stream.script) <= old(Left(stream.script))
  {
    var region: seq<byte> := [];
    ghost var whole := Behind([], TakeRegion(stream.Ahead(), count, stream.End()));
    for i := 0 to count
      invariant whole == Behind(region, TakeRegion(stream.Ahead(), count - i, stream.End()))
      invariant stream.End() == old(stream.End()) && Left(stream.script) <= old(Left(stream.script))
    {
      var next := ReadNext(stream, region, count - i, whole);
      if next.Lost? {
        return next;
      }
      region := next.value;
    }
    assert region + [] == region;
    r := Whole(region);
  }

  method ReadHead(stream: Stream, t: nat) returns (r: Read<seq<byte>>)
    modifies stream
    ensures Matches(r, TakeHead(old(stream.Ahead()), t, old(stream.End())),
                    stream.Ahead(), stream.End(), old(stream.End()))
    ensures Left(stream.script) <= old(Left(stream.script))
  {
    var token := ReadBytes(stream, t);
    if token.Lost? {
      return token;
    }
    var reserved := ReadBytes(stream, 2);
    if reserved.Lost? {
      return reserved;
    }
    var count := ReadBytes(stream, 1);
    if count.Lost? {
      return count;
    }
    r := Whole(token.value + reserved.value + count.value);
  }

  method ReadEnvelope(stream: Stream, t: byte) returns (r: Read<Response>)
    modifies stream
    ensures Matches(r, TakeEnvelope(t, old(stream.Ahead()), old(stream.End())),
                    stream.Ahead(), stream.End(), old(stream.End()))
    ensures Left(stream.script) <= old(Left(stream.script))
  {
    var head := ReadHead(stream, t);
    if head.Lost? {
      return Lost(head.error);
    }
    ghost var taken := TakeRegion(stream.Ahead(), head.value[t as int + 2], stream.End());
    var region := ReadRegion(stream, head.value[t as int + 2]);
    if region.Lost? {
      return Lost(region.error);
    }
    assert [] + taken.value == taken.value;
    r := Whole(Response([t] + head.value + region.value, Token));
  }

  /** `read_data_resp_payload`, under any schedule of short reads and timeouts. */
  method ReadDataRespPayload(stream: Stream) returns (r: Read<Response>)
    modifies stream
    ensures Matches(r, TakeResponse(old(stream.Ahead()), old(stream.End())),
                    stream.Ahead(), stream.End(), old(stream.End()))
    ensures Left(stream.script) <= old(Left(stream.script))
  {
    var peek := ReadBytes(stream, 2);
    if peek.Lost? {
      return Lost(peek.error);
    }
    var n := FromBe16(peek.value[0], peek.value[1]);
    if 0 < n <= MAX_LENGTH_FRAMED {
      var payload := ReadBytes(stream, n);
      return if payload.Lost? then Lost(payload.error) else Whole(Response(payload.value, Len));
    }
    r := ReadEnvelope(stream, peek.value[0]);
  }

  method ReadFrame(stream: Stream, cmd: byte) returns (r: Read<Frame>)
    modifies stream
    ensures Matches(r, TakeFrame(cmd, old(stream.Ahead()), old(stream.End())),
                    stream.Ahead(), stream.End(), old(stream.End()))
    ensures Left(stream.script) <= old(Left(stream.script))
  {
    if cmd == AUTH || cmd == VIRTUAL_IPS {
      var s := ReadBytes(stream, 3);
      if s.Lost? {
        return Lost(s.error);
      }
      var payload := ReadBytes(stream, FromBe16(s.value[1], s.value[2]));
      r := if payload.Lost? then Lost(payload.error) else Whole(Frame(cmd, s.value[0], payload.value, Len));
    } else if cmd == DATA {
      var data := ReadDataRespPayload(stream);
      r := if data.Lost? then Lost(data.error) else Whole(Frame(DATA, 0, data.value.payload, data.value.mode));
    } else {
      var payload := stream.ReadBody();
      r := if payload.Short? then Lost(FrameError.Cut(payload.error)) else Whole(Frame(cmd, 0, payload.data, Len));
    }
  }

  datatype Available = NoInput | Here(frame: Frame) | Gone(error: FrameError)

  /**
   * `read_l3_frame_available`. What it returns is the next frame of the
   * arriving bytes and the stream is left right behind it. When no input is
   * waiting at a frame boundary the next frame is still the next one.
   */
  method ReadL3Frame(stream: Stream) returns (r: Available)
    modifies stream
    ensures r.Here? ==> NextFrame(old(stream.Ahead()), old(stream.End())) == Took(r.frame, stream.Ahead())
    ensures r.Gone? ==> NextFrame(old(stream.Ahead()), old(stream.End())) == Broken(r.error)
    ensures r.NoInput? ==>
              NextFrame(stream.Ahead(), stream.End()) == NextFrame(old(stream.Ahead()), old(stream.End()))
    ensures !r.Gone? ==> stream.End() == old(stream.End()) && Left(stream.script) < old(Left(stream.script))
  {
    ghost var next := NextFrame(stream.Ahead(), stream.End());
    while true
      invariant NextFrame(stream.Ahead(), stream.End()) == next
      invariant stream.End() == old(stream.End()) && Left(stream.script) <= old(Left(stream.script))
      decreases Left(stream.script)
    {
      var header := stream.ReadTunnelExact(2);
      if header.NotReady? {
        return NoInput;
      }
      if header.Short? {
        return Gone(FrameError.Cut(header.error));
      }
      var h0, h1 := header.data[0], header.data[1];
      if h0 == 0x05 {
        var frame := ReadFrame(stream, h1);
        return if frame.Lost? then Gone(frame.error) else Here(frame.value);
      } else if h0 == 0x53 && h1 == 0x00 {
        var body := stream.ReadBody();
        if body.Short? {
          return Gone(FrameError.Cut(body.error));
        }
      } else {
        return Gone(BadHeader(h0, h1));
      }
    }
  }

  // ---- The worker's drain and the packets it hands on ----------------------

  lemma {:induction false} PacketsAppend(a: seq<Frame>, f: Frame)
    ensures Packets(a + [f]) == Packets(a) + PacketsOf(f)
  {
    if a == [] {
      assert a + [f] == [f];
      assert Packets([f]) == PacketsOf(f) + Packets([]);
    } else {
      assert (a + [f])[1..] == a[1..] + [f];
      PacketsAppend(a[1..], f);
      Assoc(PacketsOf(a[0]), Packets(a[1..]), PacketsOf(f));
    }
  }

  /** One batch: all there is was read, the batch is used up, or the stream failed. */
  datatype Drained = Dry | More | Ended(error: FrameError)

  /** The frames of a stream are determined by its next one. */
  lemma SameFrames(a: seq<byte>, b: seq<byte>, end: Ending)
    requires NextFrame(a, end) == NextFrame(b, end)
    ensures Frames(a, end) == Frames(b, end)
  {
  }

  class Remote {
    const stream: Stream
    /** The channel to the tunnel's reader, everything ever sent on it. */
    var incoming: seq<seq<byte>>
    var alive: bool
    ghost var handled: seq<Frame>

    /** The reader has been sent the packets of the frames handled so far. */
    ghost predicate Valid()
      reads this
    {
      incoming == Packets(handled)
    }

    /** The frames handled and those still to come. */
    ghost function All(): seq<Frame>
      reads this, stream
    {
      handled + if alive then Frames(stream.Ahead(), stream.End()) else []
    }

    constructor (events: seq<Event>)
      ensures Valid() && alive && fresh(stream) && stream.script == events
      ensures All() == Frames(Arriving(events), EndingOf(events))
    {
      stream := new Stream(events);
      incoming, alive, handled := [], true, [];
    }

    method HandleFrame(f: Frame)
      requires Valid()
      modifies this`incoming, this`handled
      ensures Valid() && handled == old(handled) + [f]
    {
      PacketsAppend(handled, f);
      handled := handled + [f];
      if f.cmd == DATA {
        var packets := DecodeL3DataPayload(f.payload, f.mode);
        if packets.Ok? {
          incoming := incoming + packets.value;
        }
      }
    }

    /** One frame of a batch. */
    method DrainOne() returns (r: Drained)
      requires Valid() && alive
      modifies this, stream
      ensures Valid() && All() == old(All())
      ensures alive <==> !r.Ended?
      ensures alive ==> Left(stream.script) < old(Left(stream.script))
    {
      ghost var ahead, end := stream.Ahead(), stream.End();
      var got := ReadL3Frame(stream);
      match got {
        case NoInput =>
          SameFrames(stream.Ahead(), ahead, end);
          r := Dry;
        case Gone(e) =>
          assert Frames(ahead, end) == [];
          alive, r := false, Ended(e);
        case Here(f) =>
          assert Frames(ahead, end) == [f] + Frames(stream.Ahead(), end);
          Assoc(handled, [f], Frames(stream.Ahead(), end));
          HandleFrame(f);
          r := More;
      }
    }

    /** `drain_l3_remote_frames`. */
    method DrainFrames(limit: nat) returns (r: Drained)
      requires Valid() && alive
      modifies this, stream
      ensures Valid() && All() == old(All())
      ensures alive <==> !r.Ended?
      ensures alive && limit > 0 ==> Left(stream.script) < old(Left(stream.script))
    {
      r := More;
      for i := 0 to limit
        invariant Valid() && All() == old(All()) && alive
        invariant i == 0 || Left(stream.script) < old(Left(stream.script))
        invariant Left(stream.script) <= old(Left(stream.script))
      {
        r := DrainOne();
        if !r.More? {
          return;
        }
      }
      r := More;
    }
  }

  /**
   * Whatever the schedule of the stream and the sizes of the batches, the
   * reader is handed the packets of the stream's frames, in order and once.
   */
  method ReceivePackets(events: seq<Event>, batches: seq<nat>) returns (packets: seq<seq<byte>>)
    ensures packets == Packets(Frames(Arriving(events), EndingOf(events)))
  {
    var remote := new Remote(events);
    for i := 0 to |batches|
      invariant remote.Valid() && remote.All() == Frames(Arriving(events), EndingOf(events))
    {
      if remote.alive {
        var _ := remote.DrainFrames(batches[i]);
      }
    }
    while remote.alive
      invariant remote.Valid() && remote.All() == Frames(Arriving(events), EndingOf(events))
      decreases remote.alive, Left(remote.stream.script)
    {
      var _ := remote.DrainFrames(1);
    }
    assert remote.handled + [] == remote.handled;
    packets := remote.incoming;
  }

  // ---- What a server sends ------------------------------------------------

  function Carried(items: seq<Sent>): (packets: seq<seq<byte>>) {
    if items == [] then [] else items[0].Carried() + Carried(items[1..])
  }

  /** A server's frames; data is framed by its length, as raw packets or as envelopes. */
  datatype Sent =
    | Raw(packet: seq<byte>)
    | Enveloped(token: seq<byte>, packets: seq<seq<byte>>)
    | Answer(cmd: byte, status: byte, payload: seq<byte>)
    | Plain(cmd: byte, payload: seq<byte>)
    | Notice(payload: seq<byte>)
  {
    /** A raw packet is complete; an envelope is not mistaken for one. */
    predicate Proper() {
      match this
      case Raw(packet) => |packet| <= MAX_LENGTH_FRAMED && IsCompleteIpPacket(packet)
      case Enveloped(token, packets) =>
        var e := Envelope(token, packets);
        Fits(token, packets) && |e| <= MAX_LENGTH_FRAMED && !Mistakable(token, |e|)
      case Answer(cmd, _, payload) => (cmd == AUTH || cmd == VIRTUAL_IPS) && |payload| < 0x1_0000
      case Plain(cmd, payload) => cmd != AUTH && cmd != VIRTUAL_IPS && cmd != DATA && |payload| < 0x1_0000
      case Notice(payload) => |payload| < 0x1_0000
    }

    function Carried(): (packets: seq<seq<byte>>) {
      match this
      case Raw(packet) => [packet]
      case Enveloped(_, packets) => packets
      case _ => []
    }
  }

  function Framed(payload: seq<byte>): (b: seq<byte>)
    requires |payload| < 0x1_0000
  {
    Be16(|payload|) + payload
  }

  function Encode(x: Sent): (wire: seq<byte>)
    requires x.Proper()
  {
    match x
    case Raw(packet) => [0x05, DATA] + Framed(packet)
    case Enveloped(token, packets) => [0x05, DATA] + Framed(Envelope(token, packets))
    case Answer(cmd, status, payload) => [0x05, cmd] + ([status] + Framed(payload))
    case Plain(cmd, payload) => [0x05, cmd] + Framed(payload)
    case Notice(payload) => [0x53, 0x00] + Framed(payload)
  }

  function Serialize(items: seq<Sent>): (wire: seq<byte>)
    requires forall i :: 0 <= i < |items| ==> items[i].Proper()
  {
    if items == [] then [] else Encode(items[0]) + Serialize(items[1..])
  }

  lemma HeaderTaken(h0: byte, h1: byte, tail: seq<byte>, end: Ending)
    ensures TakeBytes([h0, h1] + tail, 2, end) == Took([h0, h1], tail)
  {
    var bytes := [h0, h1] + tail;
    assert bytes[..2] == [h0, h1] && bytes[2..] == tail;
  }

  lemma FramedTaken(payload: seq<byte>, rest: seq<byte>, end: Ending)
    requires |payload| < 0x1_0000
    ensures TakeBytes(Framed(payload) + rest, 2, end) == Took(Be16(|payload|), payload + rest)
    ensures TakeBytes(payload + rest, |payload|, end) == Took(payload, rest)
  {
    var bytes := Framed(payload) + rest;
    assert bytes[..2] == Be16(|payload|) && bytes[2..] == payload + rest;
    assert (payload + rest)[..|payload|] == payload && (payload + rest)[|payload|..] == rest;
  }

  lemma AnswerTaken(status: byte, payload: seq<byte>, rest: seq<byte>, end: Ending)
    requires |payload| < 0x1_0000
    ensures TakeBytes([status] + Framed(payload) + rest, 3, end) == Took([status] + Be16(|payload|), payload + rest)
  {
    var bytes := [status] + Framed(payload) + rest;
    assert bytes[..3] == [status] + Be16(|payload|) && bytes[3..] == payload + rest;
  }

  /** The frame a reader makes of a server's frame; a notice makes none. */
  function FrameOf(x: Sent): (f: Frame)
    requires x.Proper() && !x.Notice?
  {
    match x
    case Raw(packet) => Frame(DATA, 0, packet, Len)
    case Enveloped(token, packets) => Frame(DATA, 0, Envelope(token, packets), Len)
    case Answer(cmd, status, payload) => Frame(cmd, status, payload, Len)
    case Plain(cmd, payload) => Frame(cmd, 0, payload, Len)
  }

  lemma FrameCarries(x: Sent)
    requires x.Proper() && !x.Notice?
    ensures PacketsOf(FrameOf(x)) == x.Carried()
  {
    if x.Enveloped? { LengthFramedEnvelope(x.token, x.packets); }
  }

  /** Data framed by its length is read back in length mode. */
  lemma DataTaken(payload: seq<byte>, rest: seq<byte>, end: Ending)
    requires 0 < |payload| <= MAX_LENGTH_FRAMED
    ensures NextFrame([0x05, DATA] + Framed(payload) + rest, end) == Took(Frame(DATA, 0, payload, Len), rest)
  {
    Assoc([0x05, DATA], Framed(payload), rest);
    HeaderTaken(0x05, DATA, Framed(payload) + rest, end);
    FramedTaken(payload, rest, end);
  }

  lemma AnswerRead(cmd: byte, status: byte, payload: seq<byte>, rest: seq<byte>, end: Ending)
    requires (cmd == AUTH || cmd == VIRTUAL_IPS) && |payload| < 0x1_0000
    ensures NextFrame([0x05, cmd] + ([status] + Framed(payload)) + rest, end) ==
            Took(Frame(cmd, status, payload, Len), rest)
  {
    Assoc([0x05, cmd], [status] + Framed(payload), rest);
    HeaderTaken(0x05, cmd, [status] + Framed(payload) + rest, end);
    AnswerTaken(status, payload, rest, end);
    FramedTaken(payload, rest, end);
  }

  lemma PlainRead(cmd: byte, payload: seq<byte>, rest: seq<byte>, end: Ending)
    requires cmd != AUTH && cmd != VIRTUAL_IPS && cmd != DATA && |payload| < 0x1_0000
    ensures NextFrame([0x05, cmd] + Framed(payload) + rest, end) == Took(Frame(cmd, 0, payload, Len), rest)
  {
    Assoc([0x05, cmd], Framed(payload), rest);
    HeaderTaken(0x05, cmd, Framed(payload) + rest, end);
    TakeBodyOf(payload, rest, end);
  }

  lemma NoticeSkipped(payload: seq<byte>, rest: seq<byte>, end: Ending)
    requires |payload| < 0x1_0000
    ensures NextFrame([0x53, 0x00] + Framed(payload) + rest, end) == NextFrame(rest, end)
  {
    Assoc([0x53, 0x00], Framed(payload), rest);
    HeaderTaken(0x53, 0x00, Framed(payload) + rest, end);
    TakeBodyOf(payload, rest, end);
  }

  lemma FrameRead(x: Sent, rest: seq<byte>, end: Ending)
    requires x.Proper() && !x.Notice?
    ensures NextFrame(Encode(x) + rest, end) == Took(FrameOf(x), rest)
  {
    match x {
      case Raw(packet) => DataTaken(packet, rest, end);
      case Enveloped(token, packets) =>
        EnvelopeShape(token, packets);
        DataTaken(Envelope(token, packets), rest, end);
      case Answer(cmd, status, payload) => AnswerRead(cmd, status, payload, rest, end);
      case Plain(cmd, payload) => PlainRead(cmd, payload, rest, end);
    }
  }

  lemma PacketsOfSent(x: Sent, rest: seq<byte>, end: Ending)
    requires x.Proper()
    ensures Packets(Frames(Encode(x) + rest, end)) == x.Carried() + Packets(Frames(rest, end))
  {
    if x.Notice? {
      NoticeSkipped(x.payload, rest, end);
      SameFrames(Encode(x) + rest, rest, end);
    } else {
      FrameRead(x, rest, end);
      FrameCarries(x);
      var more := Frames(rest, end);
      assert Frames(Encode(x) + rest, end) == [FrameOf(x)] + more;
      assert ([FrameOf(x)] + more)[1..] == more;
    }
  }

  /** Every packet a server puts in its frames is handed on, in order, whatever other frames stand between. */
  lemma {:induction false} PacketsOfSerialized(items: seq<Sent>, rest: seq<byte>, end: Ending)
    requires forall i :: 0 <= i < |items| ==> items[i].Proper()
    ensures Packets(Frames(Serialize(items) + rest, end)) == Carried(items) + Packets(Frames(rest, end))
  {
    if items == [] {
      assert Serialize(items) + rest == rest;
    } else {
      var tail := Serialize(items[1..]) + rest;
      Assoc(Encode(items[0]), Serialize(items[1..]), rest);
      PacketsOfSent(items[0], tail, end);
      PacketsOfSerialized(items[1..], rest, end);
      Assoc(items[0].Carried(), Carried(items[1..]), Packets(Frames(rest, end)));
    }
  }

  /** The round trip: the packets a server sends are the packets the reader gets. */
  method ReceiveSent(items: seq<Sent>, events: seq<Event>, batches: seq<nat>) returns (packets: seq<seq<byte>>)
    requires forall i :: 0 <= i < |items| ==> items[i].Proper()
    requires Arriving(events) == Serialize(items)
    ensures packets == Carried(items)
  {
    packets := ReceivePackets(events, batches);
    PacketsOfSerialized(items, [], EndingOf(events));
    assert Serialize(items) + [] == Serialize(items);
    assert Frames([], EndingOf(events)) == [];
  }
}
