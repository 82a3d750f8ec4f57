/**
 * The byte stream under a tunnel, read under arbitrary short reads and
 * timeouts, and the exact-length reads built on it.
 *
 * A run of the stream is a finite script of read events, so a contract proved
 * for every script is proved for every schedule of the environment.
 */
module Transport {
  import opened Bytes

  /** What one `read` call can meet. An empty chunk is `Ok(0)`, the end of the stream. */
  datatype Event = Chunk(data: seq<byte>) | WouldBlock | Failed

  /** How the stream ends. A script that runs out ends with `Ok(0)`. */
  datatype Ending = Eof | IoError

  datatype ReadResult = Got(data: seq<byte>) | AtEof | NotNow | Broke

  datatype StreamError = ClosedByServer | UnexpectedEof | IoFailure

  datatype Exact = Full(data: seq<byte>) | NotReady | Short(error: StreamError)

  /** The bytes that arrive before the stream ends, however they are chunked. */
  function Arriving(script: seq<Event>): (bytes: seq<byte>) {
    if script == [] then []
    else match script[0]
      case Chunk(d) => if d == [] then [] else d + Arriving(script[1..])
      case WouldBlock => Arriving(script[1..])
      case Failed => []
  }

  function EndingOf(script: seq<Event>): (e: Ending) {
    if script == [] then Eof
    else match script[0]
      case Chunk(d) => if d == [] then Eof else EndingOf(script[1..])
      case WouldBlock => EndingOf(script[1..])
      case Failed => IoError
  }

  /** The error of a read that needed more than `rest`, the bytes still to come. */
  function ReadError(rest: seq<byte>, end: Ending): (e: StreamError) {
    if end.IoError? then IoFailure else if rest == [] then ClosedByServer else UnexpectedEof
  }

  /** What is left of a stream, for termination: every read shrinks it. */
  ghost function Left(script: seq<Event>): nat {
    |script| + |Arriving(script)|
  }

  /** A length-prefixed body: the two length bytes and the bytes they count. */
  datatype Body = Body(data: seq<byte>, rest: seq<byte>) | Cut(error: StreamError)

  function TakeBody(bytes: seq<byte>, end: Ending): (b: Body)
    ensures b.Body? ==> |b.rest| < |bytes|
  {
    if |bytes| < 2 then Cut(ReadError(bytes, end))
    else
      var n := FromBe16(bytes[0], bytes[1]);
      if |bytes| - 2 < n then Cut(ReadError(bytes[2..], end))
      else Body(bytes[2..2 + n], bytes[2 + n..])
  }

  lemma TakeBodyOf(data: seq<byte>, rest: seq<byte>, end: Ending)
    requires |data| < 0x1_0000
    ensures TakeBody(Be16(|data|) + data + rest, end) == Body(data, rest)
  {
    var bytes := Be16(|data|) + data + rest;
    assert bytes[2..2 + |data|] == data && bytes[2 + |data|..] == rest;
  }

  class Stream {
    var script: seq<Event>

    ghost function Ahead(): seq<byte>
      reads this
    {
      Arriving(script)
    }

    ghost function End(): Ending
      reads this
    {
      EndingOf(script)
    }

    constructor (events: seq<Event>)
      ensures script == events
    {
      script := events;
    }

    /** One `read` into a buffer of `cap` bytes. */
    method Read(cap: nat) returns (r: ReadResult)
      requires cap > 0
      modifies this
      ensures r.Got? ==> 0 < |r.data| <= cap && old(Ahead()) == r.data + Ahead() && End() == old(End())
      ensures r.NotNow? <==> old(script) != [] && old(script)[0].WouldBlock?
      ensures r.NotNow? ==> script == old(script)[1..]
      ensures r.AtEof? ==> old(Ahead()) == [] && old(End()) == Eof
      ensures r.Broke? ==> old(Ahead()) == [] && old(End()) == IoError
      ensures Left(script) <= old(Left(script))
      ensures r.Got? || r.NotNow? ==> Left(script) < old(Left(script))
    {
      if script == [] {
        return AtEof;
      }
      match script[0] {
        case Chunk(d) =>
          if d == [] {
            r := AtEof;
          } else if |d| <= cap {
            r, script := Got(d), script[1..];
          } else {
            script := [Chunk(d[cap..])] + script[1..];
            r := Got(d[..cap]);
          }
        case WouldBlock => r, script := NotNow, script[1..];
        case Failed => r := Broke;
      }
    }

    /**
     * Fills a buffer of `n` bytes. A timeout before the first byte gives up
     * without consuming anything; one after it does not.
     */
    method ReadTunnelExact(n: nat) returns (r: Exact)
      modifies this
      ensures r.Full? ==> n <= |old(Ahead())| && r.data == old(Ahead())[..n]
      ensures r.Full? ==> Ahead() == old(Ahead())[n..] && End() == old(End())
      ensures r.NotReady? <==> n > 0 && old(script) != [] && old(script)[0].WouldBlock?
      ensures r.NotReady? ==> script == old(script)[1..] && Left(script) < old(Left(script))
      ensures r.Short? ==> |old(Ahead())| < n && r.error == ReadError(old(Ahead()), old(End()))
      ensures Left(script) <= old(Left(script))
      ensures r.Full? && n > 0 ==> Left(script) < old(Left(script))
    {
      var data: seq<byte> := [];
      while |data| < n
        invariant |data| <= n
        invariant old(Ahead()) == data + Ahead()
        invariant End() == old(End())
        invariant data == [] ==> script == old(script)
        invariant data != [] ==> Left(script) < old(Left(script))
        invariant data != [] ==> !(old(script) != [] && old(script)[0].WouldBlock?)
        decreases Left(script)
      {
        var read := Read(n - |data|);
        match read {
          case Got(d) => data := data + d;
          case AtEof => return Short(if data == [] then ClosedByServer else UnexpectedEof);
          case NotNow => if data == [] { return NotReady; }
          case Broke => return Short(IoFailure);
        }
      }
      r := Full(data);
    }

    /** Retries until the bytes are there: whether it succeeds depends only on what arrives. */
    method ReadTunnelExactBlocking(n: nat) returns (r: Exact)
      modifies this
      ensures !r.NotReady?
      ensures r.Full? <==> n <= |old(Ahead())|
      ensures r.Full? ==> r.data == old(Ahead())[..n] && Ahead() == old(Ahead())[n..] && End() == old(End())
      ensures r.Short? ==> r.error == ReadError(old(Ahead()), old(End()))
      ensures Left(script) <= old(Left(script))
    {
      r := ReadTunnelExact(n);
      while r.NotReady?
        invariant r.NotReady? ==> Ahead() == old(Ahead()) && End() == old(End())
        invariant r.Full? ==> n <= |old(Ahead())| && r.data == old(Ahead())[..n]
        invariant r.Full? ==> Ahead() == old(Ahead())[n..] && End() == old(End())
        invariant r.Short? ==> |old(Ahead())| < n && r.error == ReadError(old(Ahead()), old(End()))
        invariant Left(script) <= old(Left(script))
        decreases r.NotReady?, Left(script)
      {
        r := ReadTunnelExact(n);
      }
    }

    /** Reads a length-prefixed body, as `TakeBody` takes it off the arriving bytes. */
    method ReadBody() returns (r: Exact)
      modifies this
      ensures !r.NotReady?
      ensures match TakeBody(old(Ahead()), old(End()))
              case Cut(e) => r == Short(e)
              case Body(data, rest) => r == Full(data) && Ahead() == rest && End() == old(End())
      ensures Left(script) <= old(Left(script))
    {
      ghost var before := Ahead();
      var len := ReadTunnelExactBlocking(2);
      if len.Short? {
        return len;
      }
      var n := FromBe16(len.data[0], len.data[1]);
      r := ReadTunnelExactBlocking(n);
      assert r.Full? ==> before[2..][..n] == before[2..2 + n] && before[2..][n..] == before[2 + n..];
    }
  }
}
