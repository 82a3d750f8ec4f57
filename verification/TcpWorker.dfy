/**
 * The worker of a TCP tunnel: writers and closers feed a command queue and a
 * wake socket on one side, frames arrive on a stream with a read-ahead buffer
 * on the other. A state machine whose steps are the code's atomic actions; a
 * run is any interleaving.
 */
module TcpWorker {
  import opened Bytes
  import opened Options
  import TcpFraming

  const CLOSE_FRAME: seq<byte> := [0x01, 0x01, 0x00, 0x00]

  datatype Command = Write(call: nat, data: seq<byte>) | Close

  datatype Result = Wrote(n: nat) | TunnelClosed | WorkerStopped | WriteFailed

  /** Where a `write` or `close` call stands; `at` is its command's place in the queue. */
  datatype Pc =
    | Writing(data: seq<byte>)            // before the closed check
    | Checked(data: seq<byte>)            // passed it
    | Queued(data: seq<byte>, at: nat)    // command sent, worker not woken
    | AwaitingAck(data: seq<byte>, at: nat)
    | Returned(data: seq<byte>, place: Option<nat>, result: Result)
    | Closing                             // before the swap
    | SendingClose
    | WakingForClose
    | Joining
    | Joined
  {
    function Place(): (p: Option<nat>) {
      match this
      case Queued(_, at) => Some(at)
      case AwaitingAck(_, at) => Some(at)
      case Returned(_, p, _) => p
      case _ => None
    }
  }

  /** What follows a drain of the command queue. */
  datatype After = ThenWait | ThenFrames | ThenLoop

  /** How far the frame being read has come. */
  datatype Progress = Header(got: nat) | Body(need: nat)

  datatype Worker =
    | DrainingCommands(after: After)
    | AboutToWait
    | DrainingWake(socketReadable: bool)
    | DrainingFrames(frame: Progress)
    | Gone

  /** Incoming bytes: read ahead already, and in whole records on the socket, where readiness sees them. */
  datatype Inbox = Inbox(buffered: nat, socket: nat)

  datatype State = State(
    closer: Option<nat>,   // the call whose swap set `closed`
    closeAt: Option<nat>,  // the place of its Close command
    sent: seq<Command>,    // every command the channel accepted, in order
    done: nat,             // how many of them the worker has carried out in full
    failed: bool,          // the transport failed on the next one
    wake: nat,             // unread bytes of the wake socket
    calls: map<nat, Pc>,
    worker: Worker,
    wire: seq<byte>,
    torn: seq<byte>,       // what the failed command left on the wire
    inbox: Inbox)

  datatype Action =
    | BeginWrite(call: nat, data: seq<byte>)
    | BeginClose(call: nat)
    | Advance(call: nat)
    | WakeDropped(call: nat)   // the wake socket is full of unread bytes
    | Process(written: nat, ok: bool)  // a try_recv that finds a command; a flush may fail behind a full write
    | QueueEmpty               // a try_recv that finds none
    | Wait
    | ReadWake
    | ReadBytes(refill: nat, take: nat)  // one read that delivers
    | ReadTimesOut             // one that finds nothing, before the first byte of a frame; later ones change nothing
    | FrameHeader(length: nat) // header complete: what the frame still needs
    | FrameComplete
    | Arrive(bytes: nat)       // the network delivers
    | SpuriousWait             // the socket reads as ready without a whole record
    | FramesFail               // end of stream, I/O error, a frame that ends the tunnel, or the reader is gone
    | WaitFails

  /** The start: what came with the connect status may be in the read-ahead buffer. */
  function Initial(buffered: nat): (s: State) {
    State(None, None, [], 0, false, 0, map[], DrainingFrames(Header(0)), [], [], Inbox(buffered, 0))
  }

  function Encoded(c: Command): (bytes: seq<byte>) {
    match c
    case Write(_, data) => TcpFraming.Framed(data)
    case Close => CLOSE_FRAME
  }

  function Encodings(commands: seq<Command>): (parts: seq<seq<byte>>)
    ensures |parts| == |commands| && forall i :: 0 <= i < |parts| ==> parts[i] == Encoded(commands[i])
  {
    seq(|commands|, i requires 0 <= i < |commands| => Encoded(commands[i]))
  }

  /** The wire image of a list of commands. */
  function Image(commands: seq<Command>): (bytes: seq<byte>) {
    Concat(Encodings(commands))
  }

  /** The message on the ack channel of the command at place `k`, if it was sent. */
  function AckOf(s: State, k: nat): (r: Option<Result>)
    requires k < |s.sent| && s.sent[k].Write?
  {
    if k < s.done then Some(Wrote(|s.sent[k].data|))
    else if k == s.done && s.failed then Some(WriteFailed)
    else None
  }

  /** The most bytes the next read asks for. */
  function Wanted(f: Progress): (n: int) {
    match f
    case Header(got) => 2 - got
    case Body(need) => need
  }

  predicate PlacesOk(s: State) {
    forall c :: c in s.calls && s.calls[c].Place().Some? ==>
      s.calls[c].Place().value < |s.sent| && s.sent[s.calls[c].Place().value] == Write(c, s.calls[c].data)
  }

  predicate Enabled(s: State, a: Action)
    requires PlacesOk(s)
  {
    match a
    case BeginWrite(c, _) => c !in s.calls
    case BeginClose(c) => c !in s.calls
    case Advance(c) =>
      c in s.calls && !s.calls[c].Returned? && !s.calls[c].Joined? &&
      (s.calls[c].AwaitingAck? ==> s.worker.Gone? || AckOf(s, s.calls[c].at).Some?) &&
      (s.calls[c].Joining? ==> s.worker.Gone?)
    case WakeDropped(c) => c in s.calls && (s.calls[c].Queued? || s.calls[c].WakingForClose?) && s.wake > 0
    case Process(n, ok) =>
      && s.worker.DrainingCommands? && s.done < |s.sent|
      && n <= |Encoded(s.sent[s.done])| && (ok ==> n == |Encoded(s.sent[s.done])|)
    case QueueEmpty => s.worker.DrainingCommands? && s.done >= |s.sent|
    case Wait => s.worker.AboutToWait? && (s.wake > 0 || s.inbox.socket > 0)
    case ReadWake => s.worker.DrainingWake?
    case ReadBytes(refill, take) =>
      && s.worker.DrainingFrames? && 0 < take <= Wanted(s.worker.frame)
      && (s.inbox.buffered > 0 ==> refill == 0) && refill <= s.inbox.socket && take <= s.inbox.buffered + refill
    case ReadTimesOut => s.worker == DrainingFrames(Header(0)) && s.inbox == Inbox(0, 0)
    case FrameHeader(_) => s.worker == DrainingFrames(Header(2))
    case FrameComplete => s.worker == DrainingFrames(Body(0))
    case Arrive(_) => true
    case SpuriousWait => s.worker.AboutToWait?
    case FramesFail => s.worker.DrainingFrames?
    case WaitFails => s.worker.AboutToWait?
  }

  function At(s: State, c: nat, pc: Pc): (s': State) {
    s.(calls := s.calls[c := pc])
  }

  function Woken(s: State, c: nat, wake: nat): (s': State)
    requires c in s.calls && (s.calls[c].Queued? || s.calls[c].WakingForClose?)
  {
    At(s.(wake := wake), c,
       match s.calls[c] case Queued(data, at) => AwaitingAck(data, at) case _ => Joining)
  }

  function CallStep(s: State, c: nat): (s': State)
    requires PlacesOk(s) && Enabled(s, Advance(c))
  {
    match s.calls[c]
    case Writing(data) =>
      if data == [] then At(s, c, Returned(data, None, Wrote(0)))
      else if s.closer.Some? then At(s, c, Returned(data, None, TunnelClosed))
      else At(s, c, Checked(data))
    case Checked(data) =>
      if s.worker.Gone? then At(s, c, Returned(data, None, WorkerStopped))
      else At(s.(sent := s.sent + [Write(c, data)]), c, Queued(data, |s.sent|))
    case AwaitingAck(data, at) =>
      var ack := AckOf(s, at);
      At(s, c, Returned(data, Some(at), if ack.Some? then ack.value else WorkerStopped))
    case Closing => if s.closer.Some? then At(s, c, Joining) else At(s.(closer := Some(c)), c, SendingClose)
    case SendingClose =>
      At(if s.worker.Gone? then s else s.(sent := s.sent + [Close], closeAt := Some(|s.sent|)), c, WakingForClose)
    case Queued(_, _) => Woken(s, c, s.wake + 1)
    case WakingForClose => Woken(s, c, s.wake + 1)
    case Joining => At(s, c, Joined)
    case Returned(_, _, _) => s
    case Joined => s
  }

  /**
   * Carries out the command at the head of the queue; `n` of its bytes reach
   * the wire. Without `ok` the write or the flush behind it has failed.
   */
  function ProcessStep(s: State, n: nat, ok: bool): (s': State)
    requires PlacesOk(s) && Enabled(s, Process(n, ok))
  {
    var command := s.sent[s.done];
    var bytes := Encoded(command);
    var out := s.(wire := s.wire + bytes[..n]);
    var next := if ok then out.(done := s.done + 1) else out.(torn := bytes[..n], failed := true);
    next.(worker := if command.Close? || next.failed then Gone else s.worker)
  }

  function WorkerStep(s: State, a: Action): (s': State)
    requires PlacesOk(s) && Enabled(s, a)
  {
    match a
    case QueueEmpty =>
      s.(worker := match s.worker.after
                   case ThenWait => AboutToWait
                   case ThenFrames => DrainingFrames(Header(0))
                   case ThenLoop => DrainingCommands(ThenWait))
    case Wait => s.(worker := if s.wake > 0 then DrainingWake(s.inbox.socket > 0) else DrainingFrames(Header(0)))
    case SpuriousWait => s.(worker := if s.wake > 0 then DrainingWake(true) else DrainingFrames(Header(0)))
    case ReadWake =>
      if s.wake > 64 then s.(wake := s.wake - 64)
      else if s.wake > 0 then s.(wake := 0)
      else s.(worker := DrainingCommands(if s.worker.socketReadable then ThenFrames else ThenLoop))
    case ReadTimesOut => s.(worker := DrainingCommands(ThenWait))
    case FramesFail => s.(worker := Gone)
    case WaitFails => s.(worker := Gone)
    case FrameHeader(length) => s.(worker := DrainingFrames(Body(length)))
    case FrameComplete => s.(worker := DrainingFrames(Header(0)))
    case _ => s
  }

  function ReadStep(s: State, refill: nat, take: nat): (s': State)
    requires PlacesOk(s) && Enabled(s, ReadBytes(refill, take))
  {
    s.(inbox := Inbox(s.inbox.buffered + refill - take, s.inbox.socket - refill),
       worker := match s.worker.frame
                 case Header(got) => DrainingFrames(Header(got + take))
                 case Body(need) => DrainingFrames(Body(need - take)))
  }

  function Next(s: State, a: Action): (s': State)
    requires PlacesOk(s) && Enabled(s, a)
  {
    match a
    case BeginWrite(c, data) => At(s, c, Writing(data))
    case BeginClose(c) => At(s, c, Closing)
    case Advance(c) => CallStep(s, c)
    case WakeDropped(c) => Woken(s, c, s.wake)
    case Process(n, ok) => ProcessStep(s, n, ok)
    case ReadBytes(refill, take) => ReadStep(s, refill, take)
    case Arrive(n) => s.(inbox := s.inbox.(socket := s.inbox.socket + n))
    case _ => WorkerStep(s, a)
  }

  /** Steps of the calls, as opposed to the worker's and the network's. */
  predicate Calls(a: Action) {
    a.Advance? || a.WakeDropped?
  }

  // ---- What every step keeps ----------------------------------------------

  /** A call has put its command in the queue and has yet to write the wake byte. */
  predicate AboutToWake(pc: Pc) {
    pc.Queued? || pc.WakingForClose?
  }

  ghost predicate WakeComing(s: State) {
    exists c :: c in s.calls && AboutToWake(s.calls[c])
  }

  /** No command waits behind a worker that is about to sleep with nothing to wake it. */
  ghost predicate NotStranded(s: State) {
    s.worker.AboutToWait? && s.done < |s.sent| ==> s.wake > 0 || WakeComing(s)
  }

  /** Every queued write belongs to the call that waits for it, in one place only. */
  predicate SentOk(s: State) {
    forall i :: 0 <= i < |s.sent| && s.sent[i].Write? ==>
      s.sent[i].call in s.calls && s.calls[s.sent[i].call].Place() == Some(i)
  }

  /** At most one Close, sent by the call that won the swap; nothing is done after it. */
  predicate CloseOk(s: State) {
    && (forall i :: 0 <= i < |s.sent| && s.sent[i].Close? ==> s.closeAt == Some(i))
    && (s.closeAt.Some? ==> s.closer.Some? && s.closer.value in s.calls && !s.calls[s.closer.value].SendingClose?)
    && (s.closeAt.Some? && s.closeAt.value < s.done ==> s.closeAt.value == s.done - 1 && s.worker.Gone? && !s.failed)
    && (s.closeAt.Some? ==> s.closeAt.value < |s.sent| && s.sent[s.closeAt.value].Close?)
    && (forall c :: c in s.calls && s.calls[c].SendingClose? ==> s.closer == Some(c))
    && (s.closer.Some? ==> s.closer.value in s.calls && !s.calls[s.closer.value].Closing?)
  }

  predicate WireOk(s: State) {
    && s.done <= |s.sent|
    && s.wire == Image(s.sent[..s.done]) + s.torn
    && (s.failed ==> s.worker.Gone? && s.done < |s.sent| && s.torn <= Encoded(s.sent[s.done]))
    && (!s.failed ==> s.torn == [])
  }

  predicate CallOk(s: State, c: nat)
    requires PlacesOk(s) && c in s.calls
  {
    match s.calls[c]
    case Checked(data) => data != []
    case Queued(data, _) => data != []
    case AwaitingAck(data, _) => data != []
    case Returned(data, None, r) => if data == [] then r == Wrote(0) else r.TunnelClosed? || r.WorkerStopped?
    case Returned(data, Some(at), r) =>
      data != [] && (AckOf(s, at) == Some(r) || (r.WorkerStopped? && AckOf(s, at).None? && s.worker.Gone?))
    case _ => true
  }

  /** Calls and queue agree on who sent what. */
  predicate Linked(s: State) {
    PlacesOk(s) && SentOk(s) && CloseOk(s)
  }

  /** Calls, queue and wire, and that no command is stranded. */
  ghost predicate Core(s: State) {
    && Linked(s)
    && WireOk(s)
    && (forall c :: c in s.calls ==> CallOk(s, c))
    && NotStranded(s)
  }

  /** `c` may move to `pc` without touching the queue or the worker. */
  predicate MayMove(s: State, c: nat, pc: Pc) {
    && (c in s.calls ==> !AboutToWake(s.calls[c]) && s.calls[c].Place() == pc.Place())
    && (pc.Place().Some? ==> c in s.calls && pc.data == s.calls[c].data)
    && (pc.Closing? ==> c !in s.calls)
    && !pc.SendingClose?
  }

  lemma MoveLinks(s: State, c: nat, pc: Pc)
    requires Linked(s) && MayMove(s, c, pc)
    ensures Linked(At(s, c, pc))
  {
  }

  lemma MoveKeeps(s: State, c: nat, pc: Pc)
    requires Core(s) && MayMove(s, c, pc)
    requires PlacesOk(At(s, c, pc)) ==> CallOk(At(s, c, pc), c)
    ensures Core(At(s, c, pc))
  {
    var s' := At(s, c, pc);
    MoveLinks(s, c, pc);
    forall d | d in s'.calls ensures CallOk(s', d) { if d != c { assert CallOk(s, d); } }
    if s.worker.AboutToWait? && s.done < |s.sent| && s.wake == 0 {
      var d :| d in s.calls && AboutToWake(s.calls[d]);
      assert s'.calls[d] == s.calls[d];
    }
  }

  lemma SendWriteLinks(s: State, c: nat, data: seq<byte>)
    requires Linked(s) && s.done <= |s.sent| && c in s.calls && s.calls[c] == Checked(data)
    ensures Linked(At(s.(sent := s.sent + [Write(c, data)]), c, Queued(data, |s.sent|)))
  {
  }

  /** A write joins the queue; its sender is about to wake the worker. */
  lemma SendWriteKeeps(s: State, c: nat, data: seq<byte>)
    requires Core(s) && !s.worker.Gone? && c in s.calls && s.calls[c] == Checked(data)
    ensures Core(At(s.(sent := s.sent + [Write(c, data)]), c, Queued(data, |s.sent|)))
  {
    var s' := At(s.(sent := s.sent + [Write(c, data)]), c, Queued(data, |s.sent|));
    SendWriteLinks(s, c, data);
    assert CallOk(s, c);
    assert AboutToWake(s'.calls[c]);
    forall d | d in s'.calls ensures CallOk(s', d) { if d != c { assert CallOk(s, d); } }
    assert s'.sent[..s.done] == s.sent[..s.done];
  }

  lemma SendCloseLinks(s: State, c: nat)
    requires Linked(s) && s.done <= |s.sent| && c in s.calls && s.calls[c].SendingClose?
    ensures Linked(At(s.(sent := s.sent + [Close], closeAt := Some(|s.sent|)), c, WakingForClose))
  {
  }

  lemma SendCloseKeeps(s: State, c: nat)
    requires Core(s) && !s.worker.Gone? && c in s.calls && s.calls[c].SendingClose?
    ensures Core(At(s.(sent := s.sent + [Close], closeAt := Some(|s.sent|)), c, WakingForClose))
  {
    var s' := At(s.(sent := s.sent + [Close], closeAt := Some(|s.sent|)), c, WakingForClose);
    SendCloseLinks(s, c);
    assert AboutToWake(s'.calls[c]);
    forall d | d in s'.calls ensures CallOk(s', d) { if d != c { assert CallOk(s, d); } }
    assert s'.sent[..s.done] == s.sent[..s.done];
  }

  lemma WokenPlaces(s: State, c: nat, wake: nat)
    requires PlacesOk(s) && SentOk(s) && c in s.calls && AboutToWake(s.calls[c])
    ensures PlacesOk(Woken(s, c, wake)) && SentOk(Woken(s, c, wake))
  {
    assert Woken(s, c, wake).calls[c].Place() == s.calls[c].Place();
  }

  lemma WokenClose(s: State, c: nat, wake: nat)
    requires CloseOk(s) && c in s.calls && AboutToWake(s.calls[c])
    ensures CloseOk(Woken(s, c, wake))
  {
  }

  lemma WokenLinks(s: State, c: nat, wake: nat)
    requires Linked(s) && c in s.calls && AboutToWake(s.calls[c])
    ensures Linked(Woken(s, c, wake))
  {
    WokenPlaces(s, c, wake);
    WokenClose(s, c, wake);
  }

  lemma WokenKeeps(s: State, c: nat, wake: nat)
    requires Core(s) && c in s.calls && AboutToWake(s.calls[c]) && wake > 0
    ensures Core(Woken(s, c, wake))
  {
    var s' := Woken(s, c, wake);
    WokenLinks(s, c, wake);
    assert CallOk(s, c);
    forall d | d in s'.calls ensures CallOk(s', d) { if d != c { assert CallOk(s, d); } }
  }

  lemma SwapLinks(s: State, c: nat)
    requires Linked(s) && c in s.calls && s.calls[c].Closing? && s.closer.None?
    ensures Linked(At(s.(closer := Some(c)), c, SendingClose))
  {
  }

  lemma SwapKeeps(s: State, c: nat)
    requires Core(s) && c in s.calls && s.calls[c].Closing? && s.closer.None?
    ensures Core(At(s.(closer := Some(c)), c, SendingClose))
  {
    var s' := At(s.(closer := Some(c)), c, SendingClose);
    SwapLinks(s, c);
    forall d | d in s'.calls ensures CallOk(s', d) { if d != c { assert CallOk(s, d); } }
    if s.worker.AboutToWait? && s.done < |s.sent| && s.wake == 0 {
      var d :| d in s.calls && AboutToWake(s.calls[d]);
      assert s'.calls[d] == s.calls[d];
    }
  }

  lemma WriteStepKeeps(s: State, c: nat)
    requires Core(s) && Enabled(s, Advance(c))
    requires s.calls[c].Writing? || s.calls[c].Checked? || s.calls[c].AwaitingAck?
    ensures Core(CallStep(s, c))
  {
    assert CallOk(s, c);
    match s.calls[c] {
      case Writing(data) =>
        var pc := if data == [] then Returned(data, None, Wrote(0))
                  else if s.closer.Some? then Returned(data, None, TunnelClosed) else Checked(data);
        MoveKeeps(s, c, pc);
      case Checked(data) =>
        if s.worker.Gone? {
          MoveKeeps(s, c, Returned(data, None, WorkerStopped));
        } else {
          SendWriteKeeps(s, c, data);
        }
      case AwaitingAck(data, at) =>
        var ack := AckOf(s, at);
        MoveKeeps(s, c, Returned(data, Some(at), if ack.Some? then ack.value else WorkerStopped));
    }
  }

  lemma GoneLinks(s: State, c: nat)
    requires Linked(s) && c in s.calls && s.calls[c].SendingClose?
    ensures Linked(At(s, c, WakingForClose))
  {
  }

  lemma GoneWakes(s: State, c: nat)
    requires Core(s) && c in s.calls && s.calls[c].SendingClose? && s.worker.Gone?
    ensures Core(At(s, c, WakingForClose))
  {
    var s' := At(s, c, WakingForClose);
    assert Linked(s') by { GoneLinks(s, c); }
    forall d | d in s'.calls ensures CallOk(s', d) { if d != c { assert CallOk(s, d); } }
  }

  lemma CloseStepKeeps(s: State, c: nat)
    requires Core(s) && Enabled(s, Advance(c))
    requires s.calls[c].Closing? || s.calls[c].SendingClose? || s.calls[c].Joining?
    ensures Core(CallStep(s, c))
  {
    match s.calls[c] {
      case Closing => if s.closer.Some? { MoveKeeps(s, c, Joining); } else { SwapKeeps(s, c); }
      case SendingClose =>
        if s.worker.Gone? { GoneWakes(s, c); } else { SendCloseKeeps(s, c); }
      case Joining => MoveKeeps(s, c, Joined);
    }
  }

  lemma CallStepKeeps(s: State, c: nat)
    requires Core(s) && Enabled(s, Advance(c))
    ensures Core(CallStep(s, c))
  {
    var pc := s.calls[c];
    if pc.Writing? || pc.Checked? || pc.AwaitingAck? {
      WriteStepKeeps(s, c);
    } else if AboutToWake(pc) {
      WokenKeeps(s, c, s.wake + 1);
    } else {
      CloseStepKeeps(s, c);
    }
  }

  lemma ImageOneMore(commands: seq<Command>, n: nat)
    requires n < |commands|
    ensures Image(commands[..n + 1]) == Image(commands[..n]) + Encoded(commands[n])
  {
    assert Encodings(commands[..n + 1]) == Encodings(commands[..n]) + [Encoded(commands[n])];
    ConcatAppend(Encodings(commands[..n]), [Encoded(commands[n])]);
    ConcatOne(Encoded(commands[n]));
  }

  lemma ProcessWire(s: State, n: nat, ok: bool)
    requires PlacesOk(s) && WireOk(s) && !s.failed && Enabled(s, Process(n, ok))
    ensures WireOk(ProcessStep(s, n, ok))
  {
    var bytes := Encoded(s.sent[s.done]);
    ImageOneMore(s.sent, s.done);
    assert s.wire == Image(s.sent[..s.done]);
    assert n == |bytes| ==> bytes[..n] == bytes;
  }

  lemma ProcessLinks(s: State, n: nat, ok: bool)
    requires Linked(s) && s.done <= |s.sent| && !s.failed && Enabled(s, Process(n, ok))
    ensures Linked(ProcessStep(s, n, ok))
  {
  }

  lemma ProcessKeeps(s: State, n: nat, ok: bool)
    requires Core(s) && Enabled(s, Process(n, ok))
    ensures Core(ProcessStep(s, n, ok))
  {
    var s' := ProcessStep(s, n, ok);
    ProcessLinks(s, n, ok);
    ProcessWire(s, n, ok);
    forall d | d in s'.calls ensures CallOk(s', d) { assert CallOk(s, d); }
  }

  /** The worker moves on; it never comes back once gone, nor sleeps on a command. */
  lemma WorkerMoves(s: State, w: Worker, wake: nat, inbox: Inbox)
    requires Core(s) && (s.worker.Gone? ==> w.Gone?) && NotStranded(s.(worker := w, wake := wake))
    ensures Core(s.(worker := w, wake := wake, inbox := inbox))
  {
    var s' := s.(worker := w, wake := wake, inbox := inbox);
    forall d | d in s'.calls ensures CallOk(s', d) { assert CallOk(s, d); }
  }

  lemma WorkerStepKeeps(s: State, a: Action)
    requires Core(s) && Enabled(s, a) && !a.BeginWrite? && !a.BeginClose? && !Calls(a) && !a.Process?
    ensures Core(Next(s, a))
  {
    var s' := Next(s, a);
    assert s' == s.(worker := s'.worker, wake := s'.wake, inbox := s'.inbox);
    WorkerMoves(s, s'.worker, s'.wake, s'.inbox);
  }

  lemma BeginKeeps(s: State, c: nat, pc: Pc)
    requires Core(s) && c !in s.calls && (pc.Writing? || pc.Closing?)
    ensures Core(At(s, c, pc))
  {
    MoveKeeps(s, c, pc);
  }

  lemma CoreKeeps(s: State, a: Action)
    requires Core(s) && Enabled(s, a)
    ensures Core(Next(s, a))
  {
    if a.BeginWrite? {
      BeginKeeps(s, a.call, Writing(a.data));
    } else if a.BeginClose? {
      BeginKeeps(s, a.call, Closing);
    } else if a.Advance? {
      CallStepKeeps(s, a.call);
    } else if a.WakeDropped? {
      WokenKeeps(s, a.call, s.wake);
    } else if a.Process? {
      ProcessKeeps(s, a.written, a.ok);
    } else {
      WorkerStepKeeps(s, a);
    }
  }

  /** Outside a drain nothing is left in the read-ahead buffer. */
  predicate InboxOk(s: State) {
    && (!s.worker.DrainingFrames? && !s.worker.Gone? ==> s.inbox.buffered == 0)
    && (s.worker.DrainingFrames? && s.worker.frame.Header? ==> s.worker.frame.got <= 2)
  }

  lemma InboxKeeps(s: State, a: Action)
    requires PlacesOk(s) && InboxOk(s) && Enabled(s, a)
    ensures InboxOk(Next(s, a))
  {
    if a.Process? { assert Next(s, a).inbox == s.inbox; }
  }

  predicate PastSwap(pc: Pc) {
    pc.SendingClose? || pc.WakingForClose? || pc.Joining? || pc.Joined?
  }

  /** A close that waits has its Close in the queue, unless the worker was gone before. */
  predicate ClosersOk(s: State) {
    && (s.closer.Some? ==> s.closer.value in s.calls && PastSwap(s.calls[s.closer.value]))
    && (s.closer.Some? && s.closer.value in s.calls && !s.calls[s.closer.value].SendingClose? ==>
          s.closeAt.Some? || s.worker.Gone?)
    && (forall c :: c in s.calls && PastSwap(s.calls[c]) ==> s.closer.Some?)
    && (forall c :: c in s.calls && s.calls[c].Joined? ==> s.worker.Gone?)
  }

  /** A call that is no close moves without touching the closers. */
  lemma ClosersMove(s: State, s': State, c: nat, pc: Pc)
    requires ClosersOk(s) && s'.calls == s.calls[c := pc] && !PastSwap(pc)
    requires c in s.calls ==> !PastSwap(s.calls[c])
    requires s'.closer == s.closer && s'.closeAt == s.closeAt && (s.worker.Gone? ==> s'.worker.Gone?)
    ensures ClosersOk(s')
  {
  }

  lemma ClosersWriteStep(s: State, c: nat)
    requires PlacesOk(s) && ClosersOk(s) && Enabled(s, Advance(c))
    requires !s.calls[c].Closing? && !PastSwap(s.calls[c])
    ensures ClosersOk(CallStep(s, c))
  {
    var s' := CallStep(s, c);
    assert s'.calls == s.calls[c := s'.calls[c]];
    ClosersMove(s, s', c, s'.calls[c]);
  }

  lemma ClosersCloseStep(s: State, c: nat)
    requires Linked(s) && ClosersOk(s) && Enabled(s, Advance(c))
    requires s.calls[c].Closing? || PastSwap(s.calls[c])
    ensures ClosersOk(CallStep(s, c))
  {
  }

  lemma ClosersWoken(s: State, c: nat)
    requires Linked(s) && ClosersOk(s) && Enabled(s, WakeDropped(c))
    ensures ClosersOk(Woken(s, c, s.wake))
  {
  }

  lemma ClosersBegin(s: State, c: nat, pc: Pc)
    requires ClosersOk(s) && c !in s.calls && !PastSwap(pc)
    ensures ClosersOk(At(s, c, pc))
  {
    ClosersMove(s, At(s, c, pc), c, pc);
  }

  lemma ClosersStay(s: State, a: Action)
    requires PlacesOk(s) && ClosersOk(s) && Enabled(s, a) && !Calls(a) && !a.BeginWrite? && !a.BeginClose?
    ensures ClosersOk(Next(s, a))
  {
    var s' := Next(s, a);
    assert s'.calls == s.calls && s'.closer == s.closer && s'.closeAt == s.closeAt;
  }

  lemma ClosersKeep(s: State, a: Action)
    requires Linked(s) && ClosersOk(s) && Enabled(s, a)
    ensures ClosersOk(Next(s, a))
  {
    match a {
      case Advance(c) =>
        if s.calls[c].Closing? || PastSwap(s.calls[c]) { ClosersCloseStep(s, c); } else { ClosersWriteStep(s, c); }
      case WakeDropped(c) => ClosersWoken(s, c);
      case BeginWrite(c, data) => ClosersBegin(s, c, Writing(data));
      case BeginClose(c) => ClosersBegin(s, c, Closing);
      case _ => ClosersStay(s, a);
    }
  }

  ghost predicate Inv(s: State) {
    Core(s) && InboxOk(s) && ClosersOk(s)
  }

  /** Every step of every thread keeps the invariant. */
  lemma StepKeeps(s: State, a: Action)
    requires Inv(s) && Enabled(s, a)
    ensures Inv(Next(s, a))
  {
    CoreKeeps(s, a);
    InboxKeeps(s, a);
    ClosersKeep(s, a);
  }

  // ---- Whole runs ---------------------------------------------------------

  /** The state after a run from `s`, or None when some step is not enabled. */
  ghost function Exec(s: State, run: seq<Action>): (end: Option<State>)
    requires Inv(s)
    ensures end.Some? ==> Inv(end.value)
    decreases |run|
  {
    if run == [] then Some(s)
    else if !Enabled(s, run[0]) then None
    else StepKeeps(s, run[0]); Exec(Next(s, run[0]), run[1..])
  }

  ghost predicate Reachable(s: State) {
    exists n: nat, run :: Exec(Initial(n), run) == Some(s)
  }

  lemma ImageSplits(commands: seq<Command>, k: nat, n: nat)
    requires k < n <= |commands|
    ensures Image(commands[..k]) + Encoded(commands[k]) <= Image(commands[..n])
  {
    var parts := Encodings(commands[..n]);
    assert parts[..k] == Encodings(commands[..k]);
    ConcatSplits(parts, k);
  }

  /**
   * The wire is the framed payloads of the commands carried out, in queue
   * order, then at most the torn piece of a write the transport failed on.
   * There is at most one Close, and nothing is carried out behind it. The torn
   * piece can be the whole command, when only the flush behind it failed.
   */
  lemma WireFollowsQueue(s: State)
    requires Reachable(s)
    ensures s.done <= |s.sent| && s.wire == Image(s.sent[..s.done]) + s.torn
    ensures !s.failed ==> s.torn == []
    ensures forall i, j :: 0 <= i < j < |s.sent| ==> !(s.sent[i].Close? && s.sent[j].Close?)
    ensures forall i :: 0 <= i < s.done && s.sent[i].Close? ==> i == s.done - 1 && s.worker.Gone?
  {
    assert Inv(s);
  }

  /** The whole encoding of command `k` stands on the wire, right behind those before it. */
  predicate StandsAt(s: State, k: nat)
    requires k < |s.sent|
  {
    Image(s.sent[..k]) + Encoded(s.sent[k]) <= s.wire
  }

  /**
   * A write reports success exactly when the worker carried it out. It then
   * reports its full length, and its frames stand together on the wire.
   */
  lemma WriteOutcome(s: State, c: nat)
    requires Reachable(s) && c in s.calls && s.calls[c].Returned? && s.calls[c].data != []
    ensures var (data, r) := (s.calls[c].data, s.calls[c].result);
            && (r.Wrote? <==> exists k :: 0 <= k < s.done && k < |s.sent| && s.sent[k].Write? && s.sent[k].call == c)
            && (r.Wrote? ==> r.n == |data|)
            && (r.Wrote? ==> exists k :: 0 <= k < |s.sent| && s.sent[k] == Write(c, data) && StandsAt(s, k))
  {
    assert Inv(s) && CallOk(s, c);
    var place := s.calls[c].Place();
    if s.calls[c].result.Wrote? {
      assert s.sent[place.value] == Write(c, s.calls[c].data) && place.value < s.done;
      ImageSplits(s.sent, place.value, s.done);
      PrefixExtends(Image(s.sent[..place.value]) + Encoded(s.sent[place.value]), Image(s.sent[..s.done]), s.torn);
    }
  }

  /**
   * A worker about to sleep on a non-empty queue has a wake byte waiting or one
   * on its way. It is at a frame boundary with nothing left in the read-ahead
   * buffer, whatever came with the connect status.
   */
  lemma NoCommandStranded(s: State)
    requires Reachable(s) && s.worker.AboutToWait?
    ensures PlacesOk(s) && s.inbox.buffered == 0
    ensures s.done < |s.sent| ==>
              Enabled(s, Wait) || exists c :: c in s.calls && AboutToWake(s.calls[c]) && Enabled(s, Advance(c))
    ensures s.inbox.socket > 0 ==> Enabled(s, Wait)
  {
    assert Inv(s);
  }
}
