/**
 * Delivery on the reading side of a TCP tunnel: the worker drains frames into
 * a queue and `read` hands them out through a leftover buffer.
 */
module TcpTunnel {
  import opened Bytes
  import opened Transport
  import opened TcpFraming

  /** One message of the queue between the worker and the reader. */
  datatype Incoming = Piece(data: seq<byte>) | Broken(error: FrameError)

  /** `Waiting` stands for a call that blocks: the queue is empty and the worker is alive. */
  datatype Outcome = Ok(data: seq<byte>) | Err(error: FrameError) | Waiting

  /** A frame moved by the worker, or a read; reads may fall between the frames of one drain. */
  datatype Action = DrainFrame | ReadUpTo(cap: nat)

  /** The application bytes still in the queue, up to the error that ends it. */
  function Queued(incoming: seq<Incoming>): (data: seq<byte>) {
    if incoming == [] || incoming[0].Broken? then [] else incoming[0].data + Queued(incoming[1..])
  }

  lemma {:induction false} QueuedAppend(q: seq<Incoming>, m: Incoming)
    requires forall i :: 0 <= i < |q| ==> q[i].Piece?
    ensures Queued(q + [m]) == Queued(q) + Queued([m])
  {
    if q != [] {
      assert (q + [m])[1..] == q[1..] + [m];
      QueuedAppend(q[1..], m);
      Assoc(q[0].data, Queued(q[1..]), Queued([m]));
    } else {
      assert q + [m] == [m];
    }
  }

  /** `rest` is what is left of `bytes` behind some whole frames. */
  predicate Boundary(bytes: seq<byte>, rest: seq<byte>, end: Ending)
    decreases |bytes|
  {
    bytes == rest ||
    var d := DecodeFrame(bytes, end);
    (d.read.Data? || d.read.Control?) && Boundary(d.rest, rest, end)
  }

  lemma {:induction false} BoundaryMore(bytes: seq<byte>, rest: seq<byte>, end: Ending)
    requires Boundary(bytes, rest, end)
    requires var d := DecodeFrame(rest, end); d.read.Data? || d.read.Control?
    ensures Boundary(bytes, DecodeFrame(rest, end).rest, end)
    decreases |bytes|
  {
    if bytes != rest {
      BoundaryMore(DecodeFrame(bytes, end).rest, rest, end);
    }
  }

  lemma DataArrived(q: seq<Incoming>, ahead: seq<byte>, end: Ending, d: seq<byte>, rest: seq<byte>)
    requires forall i :: 0 <= i < |q| ==> q[i].Piece?
    requires DecodeFrame(ahead, end) == Decoded(Data(d), rest)
    ensures Queued(q + [Piece(d)]) + Payload(rest, end) == Queued(q) + Payload(ahead, end)
  {
    PayloadStep(ahead, end, Data(d), rest);
    QueuedAppend(q, Piece(d));
    assert Queued([Piece(d)]) == d;
    Assoc(Queued(q), d, Payload(rest, end));
  }

  lemma FailureArrived(q: seq<Incoming>, ahead: seq<byte>, end: Ending, e: FrameError)
    requires forall i :: 0 <= i < |q| ==> q[i].Piece?
    requires DecodeFrame(ahead, end).read == Failure(e)
    ensures Queued(q + [Broken(e)]) + [] == Queued(q) + Payload(ahead, end)
  {
    QueuedAppend(q, Broken(e));
    assert Payload(ahead, end) == [] == Queued([Broken(e)]);
  }

  lemma HandOut(data: seq<byte>, take: nat, rest: seq<byte>)
    requires take <= |data|
    ensures data + rest == data[..take] + (data[take..] + rest)
  {
    assert data == data[..take] + data[take..];
  }

  lemma NextPiece(q: seq<Incoming>, take: nat, rest: seq<byte>)
    requires q != [] && q[0].Piece? && take <= |q[0].data|
    ensures [] + (Queued(q) + rest) == q[0].data[..take] + (q[0].data[take..] + (Queued(q[1..]) + rest))
  {
    Assoc(q[0].data, Queued(q[1..]), rest);
    HandOut(q[0].data, take, Queued(q[1..]) + rest);
  }

  class Tunnel {
    const stream: Stream
    var incoming: seq<Incoming>
    var readBuf: seq<byte>
    var workerAlive: bool

    /** An error is the last message of the queue and ends the worker. */
    ghost predicate Valid()
      reads this
    {
      forall i :: 0 <= i < |incoming| && incoming[i].Broken? ==> i == |incoming| - 1 && !workerAlive
    }

    /** What the worker has queued or can still read. */
    ghost function Unread(): seq<byte>
      reads this, stream
    {
      Queued(incoming) + if workerAlive then Payload(stream.Ahead(), stream.End()) else []
    }

    /** Everything the reader has not been given yet, wherever it sits. */
    ghost function Undelivered(): seq<byte>
      reads this, stream
    {
      readBuf + Unread()
    }

    constructor (events: seq<Event>)
      ensures Valid() && fresh(stream) && workerAlive && incoming == [] && readBuf == []
      ensures stream.script == events
      ensures Undelivered() == Payload(Arriving(events), EndingOf(events))
    {
      stream := new Stream(events);
      incoming, readBuf, workerAlive := [], [], true;
    }

    /** One pass of the worker's loop: a frame is read and queued, or the loop ends. */
    method DrainOne() returns (going: bool)
      requires Valid() && workerAlive
      modifies this, stream
      ensures Valid() && readBuf == old(readBuf)
      ensures Unread() == old(Unread())
      ensures workerAlive ==> Left(stream.script) < old(Left(stream.script))
      ensures workerAlive || !going
      ensures !workerAlive ==> incoming != [] && incoming[|incoming| - 1].Broken?
      ensures going ==> stream.End() == old(stream.End()) &&
                        var d := DecodeFrame(old(stream.Ahead()), old(stream.End()));
                        (d.read.Data? || d.read.Control?) && d.rest == stream.Ahead()
      ensures workerAlive && !going ==> old(stream.script) == [WouldBlock] + stream.script
    {
      ghost var ahead, end := stream.Ahead(), stream.End();
      var frame := ReadTcpFrame(stream);
      match frame {
        case Data(d) =>
          DataArrived(incoming, ahead, end, d, stream.Ahead());
          incoming, going := incoming + [Piece(d)], true;
        case Control =>
          PayloadStep(ahead, end, frame, stream.Ahead());
          going := true;
        case NoInput =>
          going := false;
        case Failure(e) =>
          FailureArrived(incoming, ahead, end, e);
          incoming, workerAlive, going := incoming + [Broken(e)], false, false;
      }
    }

    /**
     * Moves every frame that can be read into the queue. It stops at a frame
     * boundary with no input waiting, which `idle` shows, or at the error that
     * ends the worker.
     */
    method Drain() returns (ghost idle: seq<Event>)
      requires Valid() && workerAlive
      modifies this, stream
      ensures Valid() && readBuf == old(readBuf)
      ensures Undelivered() == old(Undelivered())
      ensures workerAlive ==> Left(stream.script) < old(Left(stream.script))
      ensures workerAlive ==> Boundary(old(stream.Ahead()), stream.Ahead(), old(stream.End()))
                              && idle == [WouldBlock] + stream.script
      ensures !workerAlive ==> incoming != [] && incoming[|incoming| - 1].Broken?
    {
      var going := true;
      idle := stream.script;
      while going
        invariant Valid() && readBuf == old(readBuf)
        invariant Unread() == old(Unread())
        invariant workerAlive ==> Left(stream.script) <= old(Left(stream.script))
        invariant workerAlive && !going ==> Left(stream.script) < old(Left(stream.script))
        invariant workerAlive || !going
        invariant !workerAlive ==> incoming != [] && incoming[|incoming| - 1].Broken?
        invariant workerAlive ==> Boundary(old(stream.Ahead()), stream.Ahead(), old(stream.End()))
        invariant going ==> stream.End() == old(stream.End())
        invariant workerAlive && !going ==> idle == [WouldBlock] + stream.script
        decreases going, Left(stream.script)
      {
        ghost var ahead := stream.Ahead();
        idle := stream.script;
        going := DrainOne();
        if going { BoundaryMore(old(stream.Ahead()), ahead, old(stream.End())); }
      }
    }

    /** `read` into a buffer of `cap` bytes. */
    method Read(cap: nat) returns (r: Outcome)
      requires Valid()
      modifies this
      ensures Valid() && workerAlive == old(workerAlive)
      ensures r.Ok? ==> |r.data| <= cap && old(Undelivered()) == r.data + Undelivered()
      ensures !r.Ok? ==> Undelivered() == old(Undelivered())
      ensures r.Waiting? <==> cap > 0 && old(readBuf) == [] && old(incoming) == [] && workerAlive
      ensures r.Err? <==> cap > 0 && old(readBuf) == [] && old(incoming) != [] && old(incoming)[0].Broken?
      ensures r.Err? ==> r.error == old(incoming)[0].error
      ensures cap > 0 && old(readBuf) != [] ==>
                r.Ok? && r.data != [] && incoming == old(incoming) && |readBuf| < |old(readBuf)|
      ensures cap > 0 && old(readBuf) == [] && old(incoming) != [] ==> incoming == old(incoming)[1..]
      ensures cap > 0 && old(readBuf) == [] && old(incoming) == [] ==> incoming == [] && readBuf == []
    {
      if readBuf != [] {
        var take := if |readBuf| < cap then |readBuf| else cap;
        HandOut(readBuf, take, Unread());
        r := Ok(readBuf[..take]);
        readBuf := readBuf[take..];
        return;
      }
      if cap == 0 {
        return Ok([]);
      }
      if incoming == [] {
        return if workerAlive then Waiting else Ok([]);
      }
      ghost var waiting := incoming;
      var message := incoming[0];
      incoming := incoming[1..];
      match message {
        case Broken(e) => r := Err(e);
        case Piece(data) =>
          var direct := if cap < |data| then cap else |data|;
          r := Ok(data[..direct]);
          NextPiece(waiting, direct, if workerAlive then Payload(stream.Ahead(), stream.End()) else []);
          readBuf := data[direct..];
      }
    }

    /** A whole run: any interleaving of frames moved by the worker and reads of any size. */
    method Run(actions: seq<Action>) returns (delivered: seq<byte>)
      requires Valid()
      modifies this, stream
      ensures Valid()
      ensures old(Undelivered()) == delivered + Undelivered()
    {
      delivered := [];
      for i := 0 to |actions|
        invariant Valid()
        invariant old(Undelivered()) == delivered + Undelivered()
      {
        match actions[i] {
          case DrainFrame => if workerAlive { var _ := DrainOne(); }
          case ReadUpTo(cap) =>
            var r := Read(cap);
            if r.Ok? {
              Assoc(delivered, r.data, Undelivered());
              delivered := delivered + r.data;
            }
        }
      }
    }

    /** Draining until the stream ends, which ends the worker. */
    method DrainAll()
      requires Valid()
      modifies this, stream
      ensures Valid() && !workerAlive && Undelivered() == old(Undelivered())
    {
      while workerAlive
        invariant Valid() && Undelivered() == old(Undelivered())
        decreases workerAlive, Left(stream.script)
      {
        ghost var _ := Drain();
      }
    }

    /** Reading until nothing is left, once the worker is gone. */
    method ReadOut() returns (delivered: seq<byte>)
      requires Valid() && !workerAlive
      modifies this
      ensures delivered == old(Undelivered())
    {
      delivered := [];
      while readBuf != [] || incoming != []
        invariant Valid() && !workerAlive
        invariant delivered + Undelivered() == old(Undelivered())
        decreases |incoming|, |readBuf|
      {
        var r := Read(1);
        if r.Ok? {
          Assoc(delivered, r.data, Undelivered());
          delivered := delivered + r.data;
        }
      }
      assert Undelivered() == [];
    }
  }

  /**
   * The reader gets every byte that arrives, in order and once, whatever the
   * schedule of the stream and whatever the reads before it asked for.
   */
  method ReceiveAll(events: seq<Event>, actions: seq<Action>) returns (delivered: seq<byte>)
    ensures delivered == Payload(Arriving(events), EndingOf(events))
  {
    var t := new Tunnel(events);
    var first := t.Run(actions);
    t.DrainAll();
    var rest := t.ReadOut();
    delivered := first + rest;
  }

  /** The payload of a stream a peer wrote is what it wrote. */
  lemma WrittenIsReceived(items: seq<Item>, end: Ending)
    requires Sendable(items)
    ensures Payload(Serialize(items), end) == Written(items)
  {
    PayloadOfSerialized(items, [], end);
    assert Serialize(items) + [] == Serialize(items) && Written(items) + [] == Written(items);
  }

  /**
   * The round trip: for every sequence of writes and accepted control frames,
   * every schedule of the stream and every sequence of reads, the reader gets
   * the written bytes.
   */
  method ReceiveWritten(items: seq<Item>, events: seq<Event>, actions: seq<Action>) returns (delivered: seq<byte>)
    requires Sendable(items) && Arriving(events) == Serialize(items)
    ensures delivered == Written(items)
  {
    delivered := ReceiveAll(events, actions);
    WrittenIsReceived(items, EndingOf(events));
  }
}
