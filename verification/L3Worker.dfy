/**
 * The I/O worker of an L3 remote and the threads that feed it: a command queue
 * with a wake socket on one side, a stream with a read-ahead buffer that
 * socket readiness cannot see on the other. Steps are the code's atomic
 * actions; a run is any interleaving.
 */
module L3Worker {
  import opened Options

  /** `L3_READ_BATCH_FRAMES`: frames handled before the command queue is looked at again. */
  const BATCH := 32

  datatype Command = Write | Close

  /** Where an `enqueue_payload` or a `close` call stands. */
  datatype Sender = Enqueuing | Accepted | Closing | SendingClose | MustWake | Finished

  datatype Worker =
    | LoopTop                                  // draining commands before anything else
    | Beat                                     // heartbeat, liveness, then read or wait
    | AboutToWait
    | DrainingWake(socketReadable: bool)
    | DrainingAfterWake(socketReadable: bool)  // commands again, after a wake
    | Header(frames: nat, got: nat)            // `got` of the two header bytes are in
    | Body(frames: nat, need: nat)             // `need` bytes of the frame are missing
    | Stopped
  {
    predicate Reading() {
      Header? || Body?
    }
  }

  datatype State = State(
    closeFlag: bool,
    queue: seq<Command>,
    wake: nat,                // unread bytes of the wake socket
    senders: map<nat, Sender>,
    buffered: nat,            // bytes already taken off the socket
    socket: nat,              // bytes of whole records, which readiness can see
    midFrame: bool,           // some byte of a frame has been read and not all of it
    continueReading: bool,
    worker: Worker)

  datatype Action =
    | BeginEnqueue(call: nat)
    | BeginClose(call: nat)
    | Advance(call: nat)
    | WakeDropped(call: nat)       // the wake socket is full of unread bytes
    | Arrive(bytes: nat)           // the network delivers
    | TryRecv
    | HeartbeatDone(stale: bool)
    | WaitReturns(due: bool, partial: bool)  // a heartbeat is due; part of a record can be read
    | ReadWake
    | ReadBytes(refill: nat, take: nat)  // one read that delivers
    | ReadTimesOut(spurious: bool)       // one that finds nothing at a frame boundary; elsewhere it is tried again
    | FrameHeader(length: nat)           // header complete: what the frame still needs
    | FrameComplete(counted: bool)       // a status frame is skipped and not counted
    | Break                              // end of stream, I/O error or bad header
    | OutputFails                        // the write of a command or heartbeat, a flush or the wait itself

  /** The start: whatever the handshake has left in the read-ahead buffer is still to be read. */
  function Initial(buffered: nat): (s: State) {
    State(false, [], 0, map[], buffered, 0, false, true, LoopTop)
  }

  predicate AboutToWake(p: Sender) {
    p.MustWake?
  }

  predicate Enabled(s: State, a: Action) {
    match a
    case BeginEnqueue(c) => c !in s.senders
    case BeginClose(c) => c !in s.senders
    case Advance(c) => c in s.senders && !s.senders[c].Finished?
    case WakeDropped(c) => c in s.senders && AboutToWake(s.senders[c]) && s.wake > 0
    case Arrive(_) => true
    case TryRecv => s.worker.LoopTop? || s.worker.DrainingAfterWake?
    case HeartbeatDone(_) => s.worker.Beat?
    case WaitReturns(due, partial) => s.worker.AboutToWait? && (s.wake > 0 || s.socket > 0 || due || partial)
    case ReadWake => s.worker.DrainingWake?
    case ReadBytes(refill, take) =>
      s.worker.Reading() &&
      (s.worker.Header? ==> s.worker.got < 2 && s.worker.frames < BATCH) &&
      (s.buffered > 0 ==> refill == 0) && refill <= s.socket &&
      0 < take <= s.buffered + refill &&
      take <= (if s.worker.Header? then 2 - s.worker.got else s.worker.need)
    case ReadTimesOut(spurious) =>
      s.worker.Header? && s.worker.got == 0 && s.buffered == 0 && (s.socket == 0 || spurious)
    case FrameHeader(_) => s.worker.Header? && s.worker.got == 2
    case FrameComplete(_) => s.worker.Body? && s.worker.need == 0
    case Break => s.worker.Reading()
    case OutputFails => s.worker.LoopTop? || s.worker.DrainingAfterWake? || s.worker.Beat? || s.worker.AboutToWait?
  }

  /** The end of one drain: `more` says the batch was used up before the input was. */
  function EndDrain(s: State, more: bool): (s': State) {
    s.(continueReading := more, worker := LoopTop)
  }

  function At(s: State, c: nat, p: Sender): (s': State) {
    s.(senders := s.senders[c := p])
  }

  function SenderStep(s: State, c: nat): (s': State)
    requires Enabled(s, Advance(c))
  {
    match s.senders[c]
    case Enqueuing => At(s, c, if s.closeFlag then Finished else Accepted)
    case Accepted =>
      if s.worker.Stopped? then At(s, c, Finished) else At(s.(queue := s.queue + [Write]), c, MustWake)
    case Closing => At(s.(closeFlag := true), c, if s.closeFlag then Finished else SendingClose)
    case SendingClose => At(s.(queue := if s.worker.Stopped? then s.queue else s.queue + [Close]), c, MustWake)
    case MustWake => At(s.(wake := s.wake + 1), c, Finished)
    case Finished => s
  }

  function TryRecvStep(s: State): (s': State)
    requires Enabled(s, TryRecv)
  {
    if s.queue != [] then
      s.(queue := s.queue[1..], worker := if s.queue[0].Close? then Stopped else s.worker)
    else if s.worker.LoopTop? then s.(worker := Beat)
    else s.(worker := if s.worker.socketReadable then Header(0, 0) else LoopTop)
  }

  function ReadStep(s: State, refill: nat, take: nat): (s': State)
    requires Enabled(s, ReadBytes(refill, take))
  {
    s.(buffered := s.buffered + refill - take, socket := s.socket - refill, midFrame := true,
       worker := match s.worker
                 case Header(n, got) => Header(n, got + take)
                 case Body(n, need) => Body(n, need - take)
                 case _ => s.worker)
  }

  function Next(s: State, a: Action): (s': State)
    requires Enabled(s, a)
  {
    match a
    case BeginEnqueue(c) => At(s, c, Enqueuing)
    case BeginClose(c) => At(s, c, Closing)
    case Advance(c) => SenderStep(s, c)
    case WakeDropped(c) => At(s, c, Finished)
    case Arrive(n) => s.(socket := s.socket + n)
    case TryRecv => TryRecvStep(s)
    case HeartbeatDone(stale) =>
      s.(worker := if stale then Stopped else if s.continueReading then Header(0, 0) else AboutToWait)
    case WaitReturns(_, partial) =>
      var readable := s.socket > 0 || partial;
      s.(worker := if s.wake > 0 then DrainingWake(readable) else if readable then Header(0, 0) else LoopTop)
    case ReadWake =>
      if s.wake > 64 then s.(wake := s.wake - 64)
      else if s.wake > 0 then s.(wake := 0)
      else s.(worker := DrainingAfterWake(s.worker.socketReadable))
    case ReadBytes(refill, take) => ReadStep(s, refill, take)
    case ReadTimesOut(_) => EndDrain(s, false)
    case FrameHeader(length) => s.(worker := Body(s.worker.frames, length))
    case FrameComplete(counted) =>
      var n := s.worker.frames + if counted then 1 else 0;
      var done := s.(midFrame := false);
      if n == BATCH then EndDrain(done, true) else done.(worker := Header(n, 0))
    case Break => s.(worker := Stopped)
    case OutputFails =>
      var takes := s.queue != [] && (s.worker.LoopTop? || s.worker.DrainingAfterWake?);
      s.(queue := if takes then s.queue[1..] else s.queue, worker := Stopped)
  }

  // ---- What every step keeps ----------------------------------------------

  ghost predicate WakeComing(s: State) {
    exists c :: c in s.senders && AboutToWake(s.senders[c])
  }

  ghost predicate Inv(s: State) {
    // a worker on its way to sleep has a wake byte waiting or coming for any command
    && (s.worker.AboutToWait? || s.worker.Beat? ==> s.queue != [] ==> s.wake > 0 || WakeComing(s))
    // outside a drain, read-ahead bytes are only left behind by a used-up batch
    && (!s.worker.Reading() && !s.worker.Stopped? ==> s.continueReading || s.buffered == 0)
    && (s.worker.AboutToWait? ==> !s.continueReading)
    // a frame once begun is read to its end before anything else
    && (s.midFrame ==> s.worker.Body? || s.worker.Stopped? || (s.worker.Header? && s.worker.got > 0))
    // a drain never runs past its batch
    && (s.worker.Reading() ==> s.worker.frames < BATCH)
    && (s.worker.Header? ==> s.worker.got <= 2)
  }

  lemma SenderStepKeeps(s: State, c: nat)
    requires Inv(s) && Enabled(s, Advance(c))
    ensures Inv(SenderStep(s, c))
  {
    var s' := SenderStep(s, c);
    if s'.queue != [] && s'.wake == 0 && (s.worker.AboutToWait? || s.worker.Beat?) {
      if s.senders[c].Accepted? || s.senders[c].SendingClose? {
        assert AboutToWake(s'.senders[c]);
      } else {
        var d :| d in s.senders && AboutToWake(s.senders[d]);
        assert s'.senders[d] == s.senders[d];
      }
    }
  }

  lemma OtherCallKeeps(s: State, c: nat, p: Sender)
    requires Inv(s) && (c !in s.senders || s.wake > 0)
    ensures Inv(At(s, c, p))
  {
    var s' := At(s, c, p);
    if s.queue != [] && s.wake == 0 && (s.worker.AboutToWait? || s.worker.Beat?) {
      var d :| d in s.senders && AboutToWake(s.senders[d]);
      assert s'.senders[d] == s.senders[d];
    }
  }

  lemma ReadStepKeeps(s: State, a: Action)
    requires Inv(s) && Enabled(s, a)
    requires a.ReadBytes? || a.ReadTimesOut? || a.FrameHeader? || a.FrameComplete? || a.Break? || a.OutputFails?
    ensures Inv(Next(s, a))
  {
    assert !Next(s, a).worker.AboutToWait? && !Next(s, a).worker.Beat?;
  }

  lemma LoopStepKeeps(s: State, a: Action)
    requires Inv(s) && Enabled(s, a)
    requires a.Arrive? || a.TryRecv? || a.HeartbeatDone? || a.WaitReturns? || a.ReadWake?
    ensures Inv(Next(s, a))
  {
    var s' := Next(s, a);
    assert s'.senders == s.senders;
    if WakeComing(s) {
      var c :| c in s.senders && AboutToWake(s.senders[c]);
      assert c in s'.senders && AboutToWake(s'.senders[c]);
    }
  }

  /** Every step of every thread keeps the invariant. */
  lemma StepKeeps(s: State, a: Action)
    requires Inv(s) && Enabled(s, a)
    ensures Inv(Next(s, a))
  {
    match a {
      case BeginEnqueue(c) => OtherCallKeeps(s, c, Enqueuing);
      case BeginClose(c) => OtherCallKeeps(s, c, Closing);
      case Advance(c) => SenderStepKeeps(s, c);
      case WakeDropped(c) => OtherCallKeeps(s, c, Finished);
      case _ =>
        if a.Arrive? || a.TryRecv? || a.HeartbeatDone? || a.WaitReturns? || a.ReadWake? {
          LoopStepKeeps(s, a);
        } else {
          ReadStepKeeps(s, a);
        }
    }
  }

  // ---- Whole runs ---------------------------------------------------------

  ghost function Exec(s: State, run: seq<Action>): (end: Option<State>)
    requires Inv(s)
    ensures end.Some? ==> Inv(end.value)
    decreases |run|
  {
    if run == [] then Some(s)
    else if !Enabled(s, run[0]) then None
    else StepKeeps(s, run[0]); Exec(Next(s, run[0]), run[1..])
  }

  ghost predicate Reachable(s: State) {
    exists n: nat, run :: Exec(Initial(n), run) == Some(s)
  }

  /**
   * Whenever the worker is about to wait, on every interleaving and whatever
   * the handshake left in the read-ahead buffer: a non-empty queue has a wake
   * byte waiting or a sender about to write one, and the last drain ended at a
   * frame boundary with nothing left in the buffer, so what the wait can be
   * woken by is all there is to wake it.
   */
  lemma NothingStranded(s: State)
    requires Reachable(s) && s.worker.AboutToWait?
    ensures s.queue != [] ==>
              Enabled(s, WaitReturns(false, false)) ||
              exists c :: c in s.senders && AboutToWake(s.senders[c]) && Enabled(s, Advance(c))
    ensures !s.midFrame && s.buffered == 0
    ensures s.socket > 0 ==> Enabled(s, WaitReturns(false, false))
  {
    assert Inv(s);
  }

  /**
   * Reading before the first wait is needed: a worker that started without it
   * would wait with the handshake's leftover in its buffer.
   */
  lemma MustReadFirst(n: nat)
    requires n > 0
    ensures var s := Initial(n).(continueReading := false);
            && Enabled(s, TryRecv) && Enabled(Next(s, TryRecv), HeartbeatDone(false))
            && var w := Next(Next(s, TryRecv), HeartbeatDone(false));
               w.worker.AboutToWait? && w.buffered == n && !Enabled(w, WaitReturns(false, false))
  {
  }
}
