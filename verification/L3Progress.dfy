/**
 * What can keep the close of an L3 remote waiting. Its worker, like that of a
 * TCP tunnel, reads a frame to its end once it has begun; nothing else keeps it
 * from the Close in its queue.
 */
module L3Progress {
  import opened Options
  import opened L3Worker

  /** A Close asked for is in the queue or about to be, until the worker has stopped. */
  ghost predicate CloseComes(s: State) {
    s.closeFlag ==>
      s.worker.Stopped? || Close in s.queue || exists c :: c in s.senders && s.senders[c].SendingClose?
  }

  lemma SenderKeepsClose(s: State, c: nat)
    requires CloseComes(s) && Enabled(s, Advance(c))
    ensures CloseComes(SenderStep(s, c))
  {
    var s' := SenderStep(s, c);
    if s'.closeFlag && !s'.worker.Stopped? {
      if s.senders[c].Closing? && !s.closeFlag {
        assert s'.senders[c].SendingClose?;
      } else if s.senders[c].SendingClose? {
        assert s'.queue[|s.queue|] == Close;
      } else if Close in s.queue {
        assert s.queue <= s'.queue;
      } else {
        var d :| d in s.senders && s.senders[d].SendingClose?;
        assert s'.senders[d].SendingClose?;
      }
    }
  }

  lemma BeginKeepsClose(s: State, c: nat, p: Sender)
    requires CloseComes(s) && (c in s.senders ==> !s.senders[c].SendingClose?)
    ensures CloseComes(At(s, c, p))
  {
    if d :| d in s.senders && s.senders[d].SendingClose? { assert At(s, c, p).senders[d].SendingClose?; }
  }

  /** The worker takes a Close out of the queue only to stop. */
  lemma TakesClose(s: State, s': State)
    requires CloseComes(s) && s'.senders == s.senders && s'.closeFlag == s.closeFlag
    requires !s.worker.Stopped?
    requires s'.worker.Stopped? || s'.queue == s.queue ||
             (s.queue != [] && s.queue[0] != Close && s'.queue == s.queue[1..])
    ensures CloseComes(s')
  {
    if s.queue != [] { assert s.queue == [s.queue[0]] + s.queue[1..]; }
    if c :| c in s.senders && s.senders[c].SendingClose? { assert s'.senders[c].SendingClose?; }
  }

  lemma WorkerKeepsClose(s: State, a: Action)
    requires CloseComes(s) && Enabled(s, a)
    requires !a.Advance? && !a.BeginEnqueue? && !a.BeginClose? && !a.WakeDropped? && !a.Arrive?
    ensures CloseComes(Next(s, a))
  {
    TakesClose(s, Next(s, a));
  }

  lemma StepKeepsClose(s: State, a: Action)
    requires CloseComes(s) && Enabled(s, a)
    ensures CloseComes(Next(s, a))
  {
    match a {
      case Advance(c) => SenderKeepsClose(s, c);
      case BeginEnqueue(c) => BeginKeepsClose(s, c, Enqueuing);
      case BeginClose(c) => BeginKeepsClose(s, c, Closing);
      case WakeDropped(c) => BeginKeepsClose(s, c, Finished);
      case Arrive(_) =>
      case _ => WorkerKeepsClose(s, a);
    }
  }

  lemma {:induction false} RunKeepsClose(s: State, run: seq<Action>, end: State)
    requires Inv(s) && CloseComes(s) && Exec(s, run) == Some(end)
    ensures CloseComes(end)
    decreases |run|
  {
    if run != [] {
      StepKeeps(s, run[0]);
      StepKeepsClose(s, run[0]);
      RunKeepsClose(Next(s, run[0]), run[1..], end);
    }
  }

  /** The worker is inside a frame and the rest of it has not come. */
  predicate HeldInFrame(s: State) {
    && s.buffered == 0 && s.socket == 0
    && ((s.worker.Header? && s.worker.got == 1) || (s.worker.Body? && s.worker.need > 0))
  }

  /** Steps of senders and worker that need nobody else. */
  predicate Own(a: Action) {
    || a.Advance? || a.WakeDropped? || a.TryRecv? || a == HeartbeatDone(false) || a == WaitReturns(false, false)
    || a.ReadWake? || a.ReadBytes? || a == ReadTimesOut(false) || a.FrameHeader? || a.FrameComplete?
  }

  ghost predicate AtRest(s: State) {
    forall a :: Own(a) ==> !Enabled(s, a)
  }

  lemma RestingSender(s: State, c: nat)
    requires AtRest(s) && c in s.senders
    ensures s.senders[c].Finished?
  {
    assert Own(Advance(c)) && !Enabled(s, Advance(c));
  }

  lemma RestingRead(s: State)
    requires Inv(s) && AtRest(s) && s.worker.Reading()
    ensures HeldInFrame(s)
  {
    var read := ReadBytes(if s.buffered > 0 then 0 else 1, 1);
    assert Own(read) && !Enabled(s, read);
    assert Own(ReadTimesOut(false)) && !Enabled(s, ReadTimesOut(false));
    assert Own(FrameHeader(0)) && !Enabled(s, FrameHeader(0));
    assert Own(FrameComplete(true)) && !Enabled(s, FrameComplete(true));
  }

  lemma RestingWorker(s: State)
    requires Inv(s) && AtRest(s)
    ensures s.worker.Stopped? || HeldInFrame(s) || (s.worker.AboutToWait? && s.queue == [])
  {
    assert Own(TryRecv) && !Enabled(s, TryRecv);
    assert Own(HeartbeatDone(false)) && !Enabled(s, HeartbeatDone(false));
    assert Own(WaitReturns(false, false)) && !Enabled(s, WaitReturns(false, false));
    assert Own(ReadWake) && !Enabled(s, ReadWake);
    if s.worker.Reading() { RestingRead(s); }
    forall c | c in s.senders
      ensures !AboutToWake(s.senders[c])
    {
      RestingSender(s, c);
    }
  }

  /**
   * When senders and worker have done all they can, no command is left in the
   * queue of a running worker, and a closed remote's worker has stopped, unless
   * it is held in an unfinished frame.
   */
  lemma CloseHangsExactly(s: State)
    requires Reachable(s) && AtRest(s)
    ensures s.queue != [] && !s.worker.Stopped? ==> HeldInFrame(s)
    ensures s.closeFlag ==> (s.worker.Stopped? <==> !HeldInFrame(s))
  {
    var n: nat, run :| Exec(Initial(n), run) == Some(s);
    RunKeepsClose(Initial(n), run, s);
    RestingWorker(s);
    forall c | c in s.senders
      ensures !s.senders[c].SendingClose?
    {
      RestingSender(s, c);
    }
  }

  // Left alone, the worker comes to rest.

  /** Steps of the worker that need nobody else. */
  predicate OwnWorker(a: Action) {
    Own(a) && !a.Advance? && !a.WakeDropped?
  }

  /** The steps a worker has before it, besides those for its commands and its input. */
  function Rank(s: State): (n: nat) {
    match s.worker
    case Stopped => 0
    case AboutToWait => 1
    case Beat => if s.continueReading then 5 else 2
    case LoopTop => if s.continueReading then 6 else 3
    case DrainingWake(_) => if s.wake > 0 then 0 else 8
    case DrainingAfterWake(_) => 7
    case Header(_, got) => if got > 0 then 8 else if s.buffered + s.socket == 0 then 4 else 0
    case Body(_, _) => 7
  }

  function Work(s: State): (n: nat) {
    |s.queue| + 10 * (s.wake + s.socket + s.buffered) + Rank(s)
  }

  lemma RecvWorks(s: State)
    requires Enabled(s, TryRecv)
    ensures Work(Next(s, TryRecv)) < Work(s)
  {
    var s' := Next(s, TryRecv);
    assert s'.buffered == s.buffered && s'.socket == s.socket && s'.wake == s.wake;
    assert Rank(s') <= Rank(s);
  }

  lemma LoopWorks(s: State, a: Action)
    requires Enabled(s, a) && (a == HeartbeatDone(false) || a == WaitReturns(false, false))
    requires s.worker.AboutToWait? ==> s.buffered == 0
    ensures Work(Next(s, a)) < Work(s)
  {
    assert Rank(Next(s, a)) < Rank(s);
  }

  lemma WakeWorks(s: State)
    requires Enabled(s, ReadWake)
    ensures Work(Next(s, ReadWake)) < Work(s)
  {
    assert s.wake > 0 ==> Next(s, ReadWake).wake < s.wake;
  }

  lemma ReadWorks(s: State, a: Action)
    requires Enabled(s, a) && (a.ReadBytes? || a == ReadTimesOut(false) || a.FrameHeader? || a.FrameComplete?)
    ensures Work(Next(s, a)) < Work(s)
  {
    var s' := Next(s, a);
    assert s'.queue == s.queue && s'.wake == s.wake;
    if a.ReadBytes? {
      assert s'.buffered + s'.socket == s.buffered + s.socket - a.take;
      assert Rank(s') <= 8;
    }
  }

  lemma OwnStepWorks(s: State, a: Action)
    requires Inv(s) && OwnWorker(a) && Enabled(s, a)
    ensures Work(Next(s, a)) < Work(s)
  {
    if a.ReadBytes? || a == ReadTimesOut(false) || a.FrameHeader? || a.FrameComplete? {
      ReadWorks(s, a);
    } else {
      match a {
        case TryRecv => RecvWorks(s);
        case ReadWake => WakeWorks(s);
        case _ => LoopWorks(s, a);
      }
    }
  }

  /** What a step of somebody else can add to the worker's work. */
  function Adds(a: Action): (n: nat) {
    match a
    case Arrive(bytes) => 10 * bytes
    case Advance(_) => 10
    case WaitReturns(_, _) => 10
    case ReadTimesOut(_) => 10
    case _ => 0
  }

  /** More to read or to wake on lowers the worker's rank, if it changes it at all. */
  lemma RankFalls(s: State, s': State)
    requires s'.worker == s.worker && s'.wake >= s.wake && s'.continueReading == s.continueReading
    requires s'.socket >= s.socket && s'.buffered == s.buffered
    ensures Rank(s') <= Rank(s)
  {
  }

  lemma FailureWorks(s: State, a: Action)
    requires Enabled(s, a) && (a == HeartbeatDone(true) || a.Break? || a.OutputFails?)
    ensures Work(Next(s, a)) <= Work(s)
  {
    var s' := Next(s, a);
    assert s'.worker.Stopped? && |s'.queue| <= |s.queue|;
    assert s'.wake == s.wake && s'.socket == s.socket && s'.buffered == s.buffered;
  }

  lemma OtherStepWorks(s: State, a: Action)
    requires !OwnWorker(a) && Enabled(s, a)
    ensures Work(Next(s, a)) <= Work(s) + Adds(a)
  {
    if a == HeartbeatDone(true) || a.Break? || a.OutputFails? {
      FailureWorks(s, a);
    } else if a.WaitReturns? || a.ReadTimesOut? {
      assert Rank(Next(s, a)) <= 10;
    } else {
      RankFalls(s, Next(s, a));
    }
  }

  function OwnSteps(run: seq<Action>): (n: nat) {
    if run == [] then 0 else (if OwnWorker(run[0]) then 1 else 0) + OwnSteps(run[1..])
  }

  function Added(run: seq<Action>): (n: nat) {
    if run == [] then 0 else Adds(run[0]) + Added(run[1..])
  }

  /** In every run the worker's own steps are bounded by its work at the start and what the others add to it. */
  lemma {:induction false} WorkerRunsEnd(s: State, run: seq<Action>)
    requires Inv(s) && Exec(s, run).Some?
    ensures OwnSteps(run) <= Work(s) + Added(run)
    decreases |run|
  {
    if run != [] {
      var a := run[0];
      StepKeeps(s, a);
      if OwnWorker(a) { OwnStepWorks(s, a); } else { OtherStepWorks(s, a); }
      WorkerRunsEnd(Next(s, a), run[1..]);
    }
  }

  // ---- A run that holds the close -----------------------------------------

  lemma {:induction false} ExecOneMore(s: State, run: seq<Action>, a: Action)
    requires Inv(s) && Exec(s, run).Some? && Enabled(Exec(s, run).value, a)
    ensures Exec(s, run + [a]) == Some(Next(Exec(s, run).value, a))
    decreases |run|
  {
    if run == [] {
      StepKeeps(s, a);
      assert Exec(Next(s, a), []) == Some(Next(s, a));
      assert ([] + [a])[1..] == [];
    } else {
      StepKeeps(s, run[0]);
      ExecOneMore(Next(s, run[0]), run[1..], a);
      assert (run + [a])[1..] == run[1..] + [a];
    }
  }

  lemma Take(s: State, a: Action, s': State)
    requires Reachable(s) && Enabled(s, a) && Next(s, a) == s'
    ensures Reachable(s')
  {
    var n: nat, run :| Exec(Initial(n), run) == Some(s);
    ExecOneMore(Initial(n), run, a);
  }

  /** The handshake left one byte of a frame, and the worker has read it. */
  const HALF_HEADER := Initial(0).(midFrame := true, worker := Header(0, 1))

  /** Its way there. */
  function Starting(w: Worker): (s: State) {
    Initial(1).(worker := w)
  }

  lemma StartingSteps()
    ensures Next(Starting(LoopTop), TryRecv) == Starting(Beat)
    ensures Next(Starting(Beat), HeartbeatDone(false)) == Starting(Header(0, 0))
  {
  }

  lemma ReadsOneByte(s: State)
    requires s.worker == Header(0, 0) && s.buffered > 0
    ensures Enabled(s, ReadBytes(0, 1))
    ensures Next(s, ReadBytes(0, 1)) == s.(buffered := s.buffered - 1, midFrame := true, worker := Header(0, 1))
  {
  }

  lemma StartReachable()
    ensures Reachable(Starting(LoopTop))
  {
    assert Exec(Initial(1), []) == Some(Starting(LoopTop));
  }

  lemma HeaderReachable(s: State)
    requires s == Starting(Header(0, 0))
    ensures Reachable(s)
  {
    StartReachable();
    StartingSteps();
    Take(Starting(LoopTop), TryRecv, Starting(Beat));
    Take(Starting(Beat), HeartbeatDone(false), s);
  }

  lemma HalfHeaderReachable()
    ensures Reachable(HALF_HEADER)
  {
    var s := Starting(Header(0, 0));
    HeaderReachable(s);
    ReadsOneByte(s);
    Take(s, ReadBytes(0, 1), HALF_HEADER);
  }

  /** A close is called while the rest of the frame is missing. */
  function Closed(queue: seq<Command>, wake: nat, p: Sender): (s: State) {
    HALF_HEADER.(closeFlag := !p.Closing?, queue := queue, wake := wake, senders := map[0 := p])
  }

  lemma ClosedSteps()
    ensures Next(HALF_HEADER, BeginClose(0)) == Closed([], 0, Closing)
    ensures Next(Closed([], 0, Closing), Advance(0)) == Closed([], 0, SendingClose)
    ensures Next(Closed([], 0, SendingClose), Advance(0)) == Closed([Close], 0, MustWake)
    ensures Next(Closed([Close], 0, MustWake), Advance(0)) == Closed([Close], 1, Finished)
  {
    assert forall p: Sender, q :: map[0 := p][0 := q] == map[0 := q];
  }

  lemma ClosedReachable()
    ensures Reachable(Closed([Close], 1, Finished))
  {
    HalfHeaderReachable();
    ClosedSteps();
    Take(HALF_HEADER, BeginClose(0), Closed([], 0, Closing));
    Take(Closed([], 0, Closing), Advance(0), Closed([], 0, SendingClose));
    Take(Closed([], 0, SendingClose), Advance(0), Closed([Close], 0, MustWake));
    Take(Closed([Close], 0, MustWake), Advance(0), Closed([Close], 1, Finished));
  }

  lemma HeldRests(s: State)
    requires HeldInFrame(s) && forall c :: c in s.senders ==> s.senders[c].Finished?
    ensures AtRest(s)
  {
  }

  /** A node that leaves a frame unfinished keeps a close waiting for the worker's end. */
  lemma UnfinishedFrameHangsClose() returns (s: State)
    ensures Reachable(s) && AtRest(s) && HeldInFrame(s) && s.closeFlag && s.queue == [Close] && s.wake > 0
  {
    ClosedReachable();
    s := Closed([Close], 1, Finished);
    HeldRests(s);
  }
}
