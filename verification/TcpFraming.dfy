/**
 * The length-framed TCP stream: the writer that cuts a payload into frames,
 * the reader that decodes one frame, and the frames a server may put between
 * data frames.
 */
module TcpFraming {
  import opened Bytes
  import opened Transport

  /** The largest payload one frame carries (`u16::MAX`). */
  const MAX_CHUNK := 0xFFFF

  const OK: seq<byte> := [0x4F, 0x4B]
  const MESSAGE_OK: seq<byte> :=
    [0x22, 0x6D, 0x65, 0x73, 0x73, 0x61, 0x67, 0x65, 0x22, 0x3A, 0x22, 0x4F, 0x4B, 0x22]
  const MESSAGE_SUCCEEDED: seq<byte> :=
    [0x22, 0x6D, 0x65, 0x73, 0x73, 0x61, 0x67, 0x65, 0x22, 0x3A, 0x22,
     0x53, 0x75, 0x63, 0x63, 0x65, 0x65, 0x64, 0x65, 0x64, 0x22]

  datatype FrameError = Stream(error: StreamError) | ServerClosed | Refused(reply: seq<byte>)

  datatype FrameRead = NoInput | Data(data: seq<byte>) | Control | Failure(error: FrameError)

  datatype Decoded = Decoded(read: FrameRead, rest: seq<byte>)

  predicate AuthAccepted(reply: seq<byte>) {
    Contains(reply, MESSAGE_OK) || Contains(reply, MESSAGE_SUCCEEDED)
  }

  // ---- Writing ------------------------------------------------------------

  function DataFrame(chunk: seq<byte>): (frame: seq<byte>)
    requires |chunk| <= MAX_CHUNK
  {
    [0x01, 0x00] + Be16(|chunk|) + chunk
  }

  /** How much of a payload its next frame carries. */
  function ChunkOf(length: nat): (n: nat)
    ensures n <= length && n <= MAX_CHUNK && (length > 0 ==> n > 0)
  {
    if length <= MAX_CHUNK then length else MAX_CHUNK
  }

  /** The frames of a payload, each but the last carrying `MAX_CHUNK` bytes. */
  function Framed(data: seq<byte>): (wire: seq<byte>)
    decreases |data|
  {
    if data == [] then []
    else
      var n := ChunkOf(|data|);
      DataFrame(data[..n]) + Framed(data[n..])
  }

  datatype WriteResult = Wrote(n: nat) | WriteFailed

  lemma NextChunk(data: seq<byte>, at: nat, n: nat)
    requires at < |data| && n == ChunkOf(|data| - at)
    ensures Framed(data[at..]) == DataFrame(data[at..at + n]) + Framed(data[at + n..])
  {
    var tail := data[at..];
    assert tail[..n] == data[at..at + n] && tail[n..] == data[at + n..];
  }

  /** The next frame of a payload and how much of it it carries. */
  method NextFrame(data: seq<byte>, at: nat) returns (n: nat, frame: seq<byte>)
    requires at < |data|
    ensures 0 < n <= |data| - at && Framed(data[at..]) == frame + Framed(data[at + n..])
  {
    n := ChunkOf(|data| - at);
    frame := DataFrame(data[at..at + n]);
    NextChunk(data, at, n);
  }

  /** The part of `wire` that fits into `room` bytes. */
  function Taken(wire: seq<byte>, room: nat): (part: seq<byte>) {
    if |wire| <= room then wire else wire[..room]
  }

  lemma CutShort(before: seq<byte>, sent: seq<byte>, frame: seq<byte>, rest: seq<byte>, k: nat)
    requires k < |frame|
    ensures before + sent + frame[..k] == before + Taken(sent + (frame + rest), |sent| + k)
    ensures |sent + (frame + rest)| > |sent| + k
  {
    assert (sent + (frame + rest))[..|sent| + k] == sent + (frame + rest)[..k];
    assert (frame + rest)[..k] == frame[..k];
    Assoc(before, sent, frame[..k]);
  }

  /** The outgoing half of a tunnel connection. */
  class Wire {
    var bytes: seq<byte>
    /** How many more bytes the transport takes before it fails. */
    var room: nat
    const flushes: bool

    constructor (room: nat, flushes: bool)
      ensures bytes == [] && this.room == room && this.flushes == flushes
    {
      bytes, this.room, this.flushes := [], room, flushes;
    }

    /** `write_all`: what does not fit is cut off, and the write fails. */
    method WriteAll(frame: seq<byte>) returns (ok: bool)
      modifies this
      ensures ok <==> |frame| <= old(room)
      ensures ok ==> bytes == old(bytes) + frame && room == old(room) - |frame|
      ensures !ok ==> bytes == old(bytes) + frame[..old(room)]
    {
      ok := |frame| <= room;
      if ok {
        bytes, room := bytes + frame, room - |frame|;
      } else {
        bytes, room := bytes + frame[..room], 0;
      }
    }

    /** One frame behind the bytes sent so far, with `rest` still to come. */
    method WriteFrame(frame: seq<byte>, ghost before: seq<byte>, ghost sent: seq<byte>, ghost rest: seq<byte>,
                      ghost space: nat)
      returns (ok: bool)
      requires bytes == before + sent && room + |sent| == space
      modifies this
      ensures ok <==> |sent| + |frame| <= space
      ensures ok ==> bytes == before + (sent + frame) && room + |sent + frame| == space
      ensures !ok ==> bytes == before + Taken(sent + (frame + rest), space) && |sent + (frame + rest)| > space
    {
      ok := WriteAll(frame);
      if ok {
        Assoc(before, sent, frame);
      } else {
        CutShort(before, sent, frame, rest, space - |sent|);
      }
    }

    method WriteFrames(data: seq<byte>) returns (ok: bool)
      modifies this
      ensures ok <==> |Framed(data)| <= old(room)
      ensures bytes == old(bytes) + Taken(Framed(data), old(room))
    {
      ghost var all, before, space := Framed(data), bytes, room;
      ghost var sent: seq<byte> := [];
      var at := 0;
      while at < |data|
        invariant 0 <= at <= |data|
        invariant sent + Framed(data[at..]) == all
        invariant bytes == before + sent && room + |sent| == space
      {
        var n, frame := NextFrame(data, at);
        ghost var rest := Framed(data[at + n..]);
        ok := WriteFrame(frame, before, sent, rest, space);
        if !ok {
          return;
        }
        Assoc(sent, frame, rest);
        sent := sent + frame;
        at := at + n;
      }
      assert sent + [] == sent;
      ok := true;
    }

    /** Success is the full length; a failure leaves the part of the frames the transport took. */
    method WriteTcpPayload(data: seq<byte>) returns (r: WriteResult)
      modifies this
      ensures r.Wrote? <==> data == [] || (|Framed(data)| <= old(room) && flushes)
      ensures r.Wrote? ==> r.n == |data|
      ensures bytes == old(bytes) + Taken(Framed(data), old(room))
    {
      if data == [] {
        return Wrote(0);
      }
      var ok := WriteFrames(data);
      r := if ok && flushes then Wrote(|data|) else WriteFailed;
    }
  }

  // ---- Decoding -----------------------------------------------------------

  function Fail(error: FrameError): (d: Decoded) {
    Decoded(Failure(error), [])
  }

  /** What follows a two-byte header. `tail` is the stream after the header. */
  function DecodeAfter(h0: byte, h1: byte, tail: seq<byte>, end: Ending): (d: Decoded)
    ensures !d.read.NoInput? && |d.rest| <= |tail|
  {
    if h0 == 0x01 && h1 == 0x00 then
      match TakeBody(tail, end)
      case Cut(e) => Fail(Stream(e))
      case Body(data, rest) => Decoded(Data(data), rest)
    else if h0 == 0x01 && h1 == 0x01 then
      if |tail| < 2 then Fail(Stream(ReadError(tail, end)))
      else if tail[..2] == [0x30, 0x30] then Fail(ServerClosed)
      else Decoded(Control, tail[2..])
    else if h0 == 0x53 && h1 == 0x00 then
      match TakeBody(tail, end)
      case Cut(e) => Fail(Stream(e))
      case Body(reply, rest) => if Contains(reply, OK) then Decoded(Control, rest) else Fail(Refused(reply))
    else if h0 == 0x05 && h1 == 0x81 then
      if |tail| < 2 then Fail(Stream(ReadError(tail, end)))
      else if tail[..2] != [0x53, 0x00] then Decoded(Control, tail[2..])
      else
        match TakeBody(tail[2..], end)
        case Cut(e) => Fail(Stream(e))
        case Body(reply, rest) => if AuthAccepted(reply) then Decoded(Control, rest) else Fail(Refused(reply))
    else if h0 == 0x05 then
      if |tail| < 8 then Fail(Stream(ReadError(tail, end))) else Decoded(Control, tail[8..])
    else
      Decoded(Control, tail)
  }

  /** The next frame of a stream, as a function of the bytes that arrive on it. */
  function DecodeFrame(bytes: seq<byte>, end: Ending): (d: Decoded)
    ensures !d.read.NoInput? && (!d.read.Failure? ==> |d.rest| < |bytes|)
  {
    if |bytes| < 2 then Fail(Stream(ReadError(bytes, end)))
    else DecodeAfter(bytes[0], bytes[1], bytes[2..], end)
  }

  method ReadAfter(stream: Stream, h0: byte, h1: byte) returns (r: FrameRead)
    modifies stream
    ensures r == DecodeAfter(h0, h1, old(stream.Ahead()), old(stream.End())).read
    ensures !r.Failure? ==> stream.Ahead() == DecodeAfter(h0, h1, old(stream.Ahead()), old(stream.End())).rest
    ensures !r.Failure? ==> stream.End() == old(stream.End())
    ensures Left(stream.script) <= old(Left(stream.script))
  {
    if h0 == 0x01 && h1 == 0x00 {
      var body := stream.ReadBody();
      r := if body.Short? then Failure(Stream(body.error)) else Data(body.data);
    } else if h0 == 0x01 && h1 == 0x01 {
      var tail := stream.ReadTunnelExactBlocking(2);
      r := if tail.Short? then Failure(Stream(tail.error))
           else if tail.data == [0x30, 0x30] then Failure(ServerClosed)
           else Control;
    } else if h0 == 0x53 && h1 == 0x00 {
      var body := stream.ReadBody();
      r := if body.Short? then Failure(Stream(body.error))
           else if Contains(body.data, OK) then Control
           else Failure(Refused(body.data));
    } else if h0 == 0x05 && h1 == 0x81 {
      var marker := stream.ReadTunnelExactBlocking(2);
      if marker.Short? {
        r := Failure(Stream(marker.error));
      } else if marker.data != [0x53, 0x00] {
        r := Control;
      } else {
        var body := stream.ReadBody();
        r := if body.Short? then Failure(Stream(body.error))
             else if AuthAccepted(body.data) then Control
             else Failure(Refused(body.data));
      }
    } else if h0 == 0x05 {
      var tail := stream.ReadTunnelExactBlocking(8);
      r := if tail.Short? then Failure(Stream(tail.error)) else Control;
    } else {
      r := Control;
    }
  }

  /**
   * Reads one frame. Unless no input is waiting, what it returns is the next
   * frame of the arriving bytes and the stream is left right behind it: short
   * reads and timeouts in the middle of a frame change nothing.
   */
  method ReadTcpFrame(stream: Stream) returns (r: FrameRead)
    modifies stream
    ensures r.NoInput? <==> old(stream.script) != [] && old(stream.script)[0].WouldBlock?
    ensures r.NoInput? ==> stream.script == old(stream.script)[1..]
    ensures !r.NoInput? ==> r == DecodeFrame(old(stream.Ahead()), old(stream.End())).read
    ensures r.Data? || r.Control? ==>
              stream.Ahead() == DecodeFrame(old(stream.Ahead()), old(stream.End())).rest
    ensures r.Data? || r.Control? ==> stream.End() == old(stream.End())
    ensures r.Failure? || Left(stream.script) < old(Left(stream.script))
  {
    var header := stream.ReadTunnelExact(2);
    if header.NotReady? {
      return NoInput;
    }
    if header.Short? {
      return Failure(Stream(header.error));
    }
    var h0, h1 := header.data[0], header.data[1];
    r := ReadAfter(stream, h0, h1);
  }

  // ---- What a whole stream carries ----------------------------------------

  /** The application bytes of a stream: its data frames in order, up to its first error. */
  function Payload(bytes: seq<byte>, end: Ending): (data: seq<byte>)
    decreases |bytes|
  {
    var d := DecodeFrame(bytes, end);
    match d.read
    case Data(chunk) => chunk + Payload(d.rest, end)
    case Control => Payload(d.rest, end)
    case _ => []
  }

  /** The control frames the reader accepts and skips, as a server would write them. */
  datatype ControlFrame =
    | Notice(t0: byte, t1: byte)
    | Status(reply: seq<byte>)
    | Marker(m0: byte, m1: byte)
    | AuthReply(reply: seq<byte>)
    | ConnectStatus(status: byte, tail: seq<byte>)
    | Extension(h0: byte, h1: byte)
  {
    predicate Accepted() {
      match this
      case Notice(t0, t1) => !(t0 == 0x30 && t1 == 0x30)
      case Status(reply) => |reply| <= MAX_CHUNK && Contains(reply, OK)
      case Marker(m0, m1) => !(m0 == 0x53 && m1 == 0x00)
      case AuthReply(reply) => |reply| <= MAX_CHUNK && AuthAccepted(reply)
      case ConnectStatus(status, tail) => status != 0x81 && |tail| == 8
      case Extension(h0, h1) =>
        h0 != 0x05 && !(h0 == 0x01 && h1 <= 0x01) && !(h0 == 0x53 && h1 == 0x00)
    }

    function Header(): (h: (byte, byte)) {
      match this
      case Notice(_, _) => (0x01, 0x01)
      case Status(_) => (0x53, 0x00)
      case Marker(_, _) => (0x05, 0x81)
      case AuthReply(_) => (0x05, 0x81)
      case ConnectStatus(status, _) => (0x05, status)
      case Extension(h0, h1) => (h0, h1)
    }

    function Trailer(): (tail: seq<byte>)
      requires Accepted()
    {
      match this
      case Notice(t0, t1) => [t0, t1]
      case Status(reply) => Be16(|reply|) + reply
      case Marker(m0, m1) => [m0, m1]
      case AuthReply(reply) => [0x53, 0x00] + (Be16(|reply|) + reply)
      case ConnectStatus(_, tail) => tail
      case Extension(_, _) => []
    }

    function Encode(): (wire: seq<byte>)
      requires Accepted()
    {
      [Header().0, Header().1] + Trailer()
    }
  }

  /** What a server puts on the wire: payloads framed by the writer, and control frames. */
  datatype Item = Write(data: seq<byte>) | Interject(frame: ControlFrame)

  predicate Sendable(items: seq<Item>) {
    forall i :: 0 <= i < |items| && items[i].Interject? ==> items[i].frame.Accepted()
  }

  function ItemWire(item: Item): (wire: seq<byte>)
    requires item.Interject? ==> item.frame.Accepted()
  {
    match item
    case Write(d) => Framed(d)
    case Interject(f) => f.Encode()
  }

  function Serialize(items: seq<Item>): (wire: seq<byte>)
    requires Sendable(items)
  {
    if items == [] then []
    else ItemWire(items[0]) + Serialize(items[1..])
  }

  function ItemData(item: Item): (data: seq<byte>) {
    match item
    case Write(d) => d
    case Interject(_) => []
  }

  function Written(items: seq<Item>): (data: seq<byte>) {
    if items == [] then [] else ItemData(items[0]) + Written(items[1..])
  }

  lemma DecodeHeader(h0: byte, h1: byte, tail: seq<byte>, end: Ending)
    ensures DecodeFrame([h0, h1] + tail, end) == DecodeAfter(h0, h1, tail, end)
  {
    assert ([h0, h1] + tail)[2..] == tail;
  }

  lemma DecodeDataFrame(chunk: seq<byte>, rest: seq<byte>, end: Ending)
    requires |chunk| <= MAX_CHUNK
    ensures DecodeFrame(DataFrame(chunk) + rest, end) == Decoded(Data(chunk), rest)
  {
    var tail := Be16(|chunk|) + chunk + rest;
    assert DataFrame(chunk) + rest == [0x01, 0x00] + tail;
    DecodeHeader(0x01, 0x00, tail, end);
    TakeBodyOf(chunk, rest, end);
  }

  lemma SkipAuthReply(reply: seq<byte>, rest: seq<byte>, end: Ending)
    requires |reply| <= MAX_CHUNK && AuthAccepted(reply)
    ensures DecodeAfter(0x05, 0x81, [0x53, 0x00] + (Be16(|reply|) + reply) + rest, end) == Decoded(Control, rest)
  {
    var body := Be16(|reply|) + reply;
    Assoc([0x53, 0x00], body, rest);
    var tail := [0x53, 0x00] + (body + rest);
    assert tail[..2] == [0x53, 0x00] && tail[2..] == body + rest;
    TakeBodyOf(reply, rest, end);
  }

  lemma SkipTrailer(f: ControlFrame, rest: seq<byte>, end: Ending)
    requires f.Accepted()
    ensures DecodeAfter(f.Header().0, f.Header().1, f.Trailer() + rest, end) == Decoded(Control, rest)
  {
    var tail := f.Trailer() + rest;
    match f {
      case Notice(t0, t1) => assert tail[..2] == [t0, t1] && tail[2..] == rest;
      case Status(reply) => TakeBodyOf(reply, rest, end);
      case Marker(m0, m1) => assert tail[..2] == [m0, m1] && tail[2..] == rest;
      case AuthReply(reply) => SkipAuthReply(reply, rest, end);
      case ConnectStatus(_, t) => assert tail[8..] == rest;
      case Extension(_, _) => assert tail == rest;
    }
  }

  lemma DecodeControl(f: ControlFrame, rest: seq<byte>, end: Ending)
    requires f.Accepted()
    ensures DecodeFrame(f.Encode() + rest, end) == Decoded(Control, rest)
  {
    var (h0, h1) := f.Header();
    Assoc([h0, h1], f.Trailer(), rest);
    SkipTrailer(f, rest, end);
    DecodeHeader(h0, h1, f.Trailer() + rest, end);
  }

  lemma PayloadStep(bytes: seq<byte>, end: Ending, read: FrameRead, rest: seq<byte>)
    requires DecodeFrame(bytes, end) == Decoded(read, rest) && (read.Data? || read.Control?)
    ensures Payload(bytes, end) == (if read.Data? then read.data else []) + Payload(rest, end)
  {
  }

  lemma PayloadOfFrame(chunk: seq<byte>, rest: seq<byte>, end: Ending)
    requires |chunk| <= MAX_CHUNK
    ensures Payload(DataFrame(chunk) + rest, end) == chunk + Payload(rest, end)
  {
    DecodeDataFrame(chunk, rest, end);
    PayloadStep(DataFrame(chunk) + rest, end, Data(chunk), rest);
  }

  /** One frame in front of others: its chunk comes before what they carry. */
  lemma FrameInFront(p: seq<byte> -> seq<byte>, frame: seq<byte>, inner: seq<byte>, rest: seq<byte>,
                     head: seq<byte>, tail: seq<byte>)
    requires p(frame + (inner + rest)) == head + p(inner + rest)
    requires p(inner + rest) == tail + p(rest)
    ensures p(frame + inner + rest) == head + tail + p(rest)
  {
    Assoc(frame, inner, rest);
    Assoc(head, tail, p(rest));
  }

  lemma Halves(data: seq<byte>, n: nat)
    requires n <= |data|
    ensures data[..n] + data[n..] == data
  {
  }

  lemma PayloadOfChunk(data: seq<byte>, n: nat, rest: seq<byte>, end: Ending)
    requires data != [] && n == ChunkOf(|data|)
    requires Payload(Framed(data[n..]) + rest, end) == data[n..] + Payload(rest, end)
    ensures Payload(Framed(data) + rest, end) == data + Payload(rest, end)
  {
    var head, tail := data[..n], data[n..];
    PayloadOfFrame(head, Framed(tail) + rest, end);
    FrameInFront(bytes => Payload(bytes, end), DataFrame(head), Framed(tail), rest, head, tail);
    Halves(data, n);
  }

  lemma {:induction false} PayloadFramed(data: seq<byte>, rest: seq<byte>, end: Ending)
    ensures Payload(Framed(data) + rest, end) == data + Payload(rest, end)
    decreases |data|
  {
    if data == [] {
      assert Framed(data) + rest == rest;
    } else {
      var n := ChunkOf(|data|);
      PayloadFramed(data[n..], rest, end);
      PayloadOfChunk(data, n, rest, end);
    }
  }

  lemma PayloadControl(f: ControlFrame, rest: seq<byte>, end: Ending)
    requires f.Accepted()
    ensures Payload(f.Encode() + rest, end) == Payload(rest, end)
  {
    DecodeControl(f, rest, end);
    PayloadStep(f.Encode() + rest, end, Control, rest);
  }

  lemma PayloadItem(item: Item, rest: seq<byte>, end: Ending)
    requires item.Interject? ==> item.frame.Accepted()
    ensures Payload(ItemWire(item) + rest, end) == ItemData(item) + Payload(rest, end)
  {
    match item
    case Write(d) => PayloadFramed(d, rest, end);
    case Interject(f) => PayloadControl(f, rest, end);
  }

  /**
   * Framing is lossless: whatever is written, and whatever accepted control
   * frames a server puts between the writes, decoding the stream gives back
   * exactly the written bytes.
   */
  lemma {:induction false} PayloadOfSerialized(items: seq<Item>, rest: seq<byte>, end: Ending)
    requires Sendable(items)
    ensures Payload(Serialize(items) + rest, end) == Written(items) + Payload(rest, end)
  {
    if items == [] {
      assert Serialize(items) + rest == rest;
    } else {
      var more := items[1..];
      PayloadOfSerialized(more, rest, end);
      Assoc(ItemWire(items[0]), Serialize(more), rest);
      PayloadItem(items[0], Serialize(more) + rest, end);
      Assoc(ItemData(items[0]), Written(more), Payload(rest, end));
    }
  }
}
