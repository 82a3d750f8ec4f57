/**
 * What can keep a call on a TCP tunnel waiting. Its worker reads a frame to its
 * end once it has begun, so a server that leaves one unfinished holds every
 * write and close behind it, and nothing else does.
 */
module TcpProgress {
  import opened Options
  import opened TcpWorker

  // ---- Who can keep a call waiting ----------------------------------------

  predicate Finished(pc: Pc) {
    pc.Returned? || pc.Joined?
  }

  /** The worker is inside a frame and the rest of it has not come. */
  predicate HeldInFrame(s: State) {
    && s.worker.DrainingFrames? && s.inbox == Inbox(0, 0)
    && (s.worker.frame == Header(1) || (s.worker.frame.Body? && s.worker.frame.need > 0))
  }

  /** Steps of the worker that need nobody else. */
  predicate OwnWorker(a: Action) {
    || a.Process? || a.QueueEmpty? || a.Wait? || a.ReadWake?
    || a.ReadBytes? || a.ReadTimesOut? || a.FrameHeader? || a.FrameComplete?
  }

  /** Neither a call nor the worker can take a step without the network. */
  ghost predicate AtRest(s: State)
    requires PlacesOk(s)
  {
    forall a :: Calls(a) || OwnWorker(a) ==> !Enabled(s, a)
  }

  lemma RestingWait(s: State)
    requires PlacesOk(s) && s.done <= |s.sent| && NotStranded(s) && AtRest(s) && s.worker.AboutToWait?
    ensures s.done == |s.sent|
  {
    assert OwnWorker(Wait) && !Enabled(s, Wait);
    forall c | c in s.calls ensures !AboutToWake(s.calls[c]) {
      assert Calls(Advance(c)) && !Enabled(s, Advance(c));
    }
  }

  lemma RestingRead(s: State)
    requires PlacesOk(s) && InboxOk(s) && AtRest(s) && s.worker.DrainingFrames?
    ensures HeldInFrame(s)
  {
    var read := ReadBytes(if s.inbox.buffered > 0 then 0 else 1, 1);
    assert OwnWorker(read) && !Enabled(s, read);
    assert OwnWorker(ReadTimesOut) && !Enabled(s, ReadTimesOut);
    assert OwnWorker(FrameHeader(0)) && !Enabled(s, FrameHeader(0));
    assert OwnWorker(FrameComplete) && !Enabled(s, FrameComplete);
  }

  lemma RestingWorker(s: State)
    requires Inv(s) && AtRest(s)
    ensures s.worker.Gone? || HeldInFrame(s) || (s.worker.AboutToWait? && s.done == |s.sent|)
  {
    assert OwnWorker(ReadWake) && !Enabled(s, ReadWake);
    assert OwnWorker(QueueEmpty) && !Enabled(s, QueueEmpty);
    if s.done < |s.sent| {
      var process := Process(|Encoded(s.sent[s.done])|, true);
      assert OwnWorker(process) && !Enabled(s, process);
    }
    if s.worker.AboutToWait? { RestingWait(s); }
    if s.worker.DrainingFrames? { RestingRead(s); }
  }

  /** At rest, a call that has not returned waits for the worker, and its command or the Close is in the queue. */
  lemma RestingCall(s: State, c: nat)
    requires Inv(s) && AtRest(s) && c in s.calls && !Finished(s.calls[c])
    ensures !s.worker.Gone? && s.done < |s.sent|
  {
    assert Calls(Advance(c)) && !Enabled(s, Advance(c));
    assert CallOk(s, c);
    if s.calls[c].Joining? {
      var d := s.closer.value;
      assert Calls(Advance(d)) && !Enabled(s, Advance(d));
    }
  }

  /** A command the worker has not taken has a call waiting for it. */
  lemma QueuedIsAwaited(s: State) returns (c: nat)
    requires Inv(s) && !s.worker.Gone? && s.done < |s.sent|
    ensures c in s.calls && !Finished(s.calls[c])
  {
    match s.sent[s.done] {
      case Write(call, _) =>
        c := call;
        assert CallOk(s, c);
      case Close => c := s.closer.value;
    }
  }

  /**
   * When calls and worker have done all they can, a call is still waiting if and
   * only if the worker is held in an unfinished frame with a command behind it:
   * no write and no close hangs for any other reason.
   */
  lemma HangsExactly(s: State)
    requires Reachable(s) && PlacesOk(s) && AtRest(s)
    ensures (exists c :: c in s.calls && !Finished(s.calls[c])) <==> HeldInFrame(s) && s.done < |s.sent|
  {
    RestingWorker(s);
    if c :| c in s.calls && !Finished(s.calls[c]) { RestingCall(s, c); }
    if HeldInFrame(s) && s.done < |s.sent| { var c := QueuedIsAwaited(s); }
  }

  /**
   * A write queued behind Close is never sent. Its call returns with an error:
   * it can as soon as the worker has met the Close, and once calls and worker
   * have done all they can it has, unless the worker is held in a frame.
   */
  lemma BehindClose(s: State, k: nat, c: nat)
    requires Reachable(s) && k < |s.sent| && s.sent[k].Close?
    requires c in s.calls && s.calls[c].Place().Some? && s.calls[c].Place().value > k
    ensures s.done <= k + 1
    ensures s.calls[c].Returned? ==> !s.calls[c].result.Wrote?
    ensures s.worker.Gone? && s.calls[c].AwaitingAck? ==>
              PlacesOk(s) && Enabled(s, Advance(c)) && CallStep(s, c).calls[c].result.WorkerStopped?
    ensures PlacesOk(s) && AtRest(s) ==> (s.calls[c].Returned? <==> !HeldInFrame(s))
  {
    assert Inv(s) && CallOk(s, c);
    if AtRest(s) && !s.calls[c].Returned? {
      RestingCall(s, c);
      RestingWorker(s);
    }
  }

  // Left alone, calls and worker come to rest.

  function CallWork(pc: Pc): (n: nat) {
    match pc
    case Writing(_) => 4
    case Checked(_) => 3
    case Queued(_, _) => 2
    case AwaitingAck(_, _) => 1
    case Returned(_, _, _) => 0
    case Closing => 4
    case SendingClose => 3
    case WakingForClose => 2
    case Joining => 1
    case Joined => 0
  }

  /** What a call's step does outside the call: one command or one wake byte more, at most. */
  predicate StepAdds(s: State, s': State, c: nat)
    requires c in s.calls
  {
    && c in s'.calls && s'.calls == s.calls[c := s'.calls[c]] && CallWork(s'.calls[c]) < CallWork(s.calls[c])
    && s'.worker == s.worker && s'.inbox == s.inbox && s'.done == s.done
    && |s'.sent| + s'.wake <= |s.sent| + s.wake + 1 && |s'.sent| >= |s.sent| && s'.wake >= s.wake
  }

  lemma WriteStepAdds(s: State, c: nat)
    requires PlacesOk(s) && Enabled(s, Advance(c))
    requires s.calls[c].Writing? || s.calls[c].Checked? || s.calls[c].AwaitingAck? || s.calls[c].Queued?
    ensures StepAdds(s, CallStep(s, c), c)
  {
  }

  lemma CloseStepAdds(s: State, c: nat)
    requires PlacesOk(s) && Enabled(s, Advance(c))
    requires s.calls[c].Closing? || PastSwap(s.calls[c])
    ensures StepAdds(s, CallStep(s, c), c)
  {
  }

  lemma CallStepAdds(s: State, c: nat)
    requires PlacesOk(s) && Enabled(s, Advance(c))
    ensures StepAdds(s, CallStep(s, c), c)
  {
    if s.calls[c].Closing? || PastSwap(s.calls[c]) { CloseStepAdds(s, c); } else { WriteStepAdds(s, c); }
  }

  /** The worker and the network leave the calls alone. */
  lemma OthersLeaveCalls(s: State, a: Action)
    requires PlacesOk(s) && Enabled(s, a) && !Calls(a) && !a.BeginWrite? && !a.BeginClose?
    ensures Next(s, a).calls == s.calls
  {
  }

  /** A call takes at most four steps, and no other step sets it back. */
  lemma CallShortens(s: State, a: Action, c: nat)
    requires PlacesOk(s) && Enabled(s, a) && c in s.calls
    ensures c in Next(s, a).calls
    ensures a == Advance(c) || a == WakeDropped(c) ==> CallWork(Next(s, a).calls[c]) < CallWork(s.calls[c])
    ensures a != Advance(c) && a != WakeDropped(c) ==> Next(s, a).calls[c] == s.calls[c]
  {
    if a.Advance? {
      CallStepAdds(s, a.call);
    } else if !a.WakeDropped? && !a.BeginWrite? && !a.BeginClose? {
      OthersLeaveCalls(s, a);
    }
  }

  /** The steps a worker has before it, besides those for its commands and its input. */
  function Rank(s: State): (n: nat) {
    match s.worker
    case Gone => 0
    case AboutToWait => 1
    case DrainingCommands(after) => if after.ThenWait? then 2 else if after.ThenLoop? then 3 else 4
    case DrainingWake(_) => if s.wake > 0 then 0 else 5
    case DrainingFrames(Header(got)) => if got == 0 then if s.inbox == Inbox(0, 0) then 3 else 0 else 5
    case DrainingFrames(Body(_)) => 4
  }

  function Work(s: State): (n: int) {
    |s.sent| - s.done + 10 * (s.wake + s.inbox.socket + s.inbox.buffered) + Rank(s)
  }

  lemma ReadWorks(s: State, refill: nat, take: nat)
    requires PlacesOk(s) && Enabled(s, ReadBytes(refill, take))
    ensures Work(ReadStep(s, refill, take)) < Work(s)
  {
    var s' := ReadStep(s, refill, take);
    assert s'.inbox.buffered + s'.inbox.socket == s.inbox.buffered + s.inbox.socket - take;
    assert Rank(s') <= 5;
  }

  lemma ProcessWorks(s: State, n: nat, ok: bool)
    requires PlacesOk(s) && Enabled(s, Process(n, ok))
    ensures Work(ProcessStep(s, n, ok)) < Work(s)
  {
    var s' := ProcessStep(s, n, ok);
    assert s'.inbox == s.inbox && s'.wake == s.wake && s'.sent == s.sent;
    assert s'.done == s.done + 1 || s'.worker.Gone?;
  }

  lemma LoopWorks(s: State, a: Action)
    requires PlacesOk(s) && Enabled(s, a) && (a.QueueEmpty? || a.Wait? || a.ReadWake?)
    requires s.inbox.buffered == 0
    ensures Work(WorkerStep(s, a)) < Work(s)
  {
    var s' := WorkerStep(s, a);
    assert s'.inbox == s.inbox && s'.sent == s.sent && s'.done == s.done;
  }

  lemma FrameWorks(s: State, a: Action)
    requires PlacesOk(s) && Enabled(s, a) && (a.ReadTimesOut? || a.FrameHeader? || a.FrameComplete?)
    ensures Work(WorkerStep(s, a)) < Work(s)
  {
    var s' := WorkerStep(s, a);
    assert s' == s.(worker := s'.worker);
  }

  lemma OwnStepWorks(s: State, a: Action)
    requires PlacesOk(s) && InboxOk(s) && OwnWorker(a) && Enabled(s, a)
    ensures Work(Next(s, a)) < Work(s)
  {
    match a {
      case ReadBytes(refill, take) => ReadWorks(s, refill, take);
      case Process(n, ok) => ProcessWorks(s, n, ok);
      case QueueEmpty => LoopWorks(s, a);
      case Wait => LoopWorks(s, a);
      case ReadWake => LoopWorks(s, a);
      case ReadTimesOut => FrameWorks(s, a);
      case FrameHeader(_) => FrameWorks(s, a);
      case FrameComplete => FrameWorks(s, a);
    }
  }

  /** What a step of somebody else can add to the worker's work. */
  function Adds(a: Action): (n: nat) {
    match a
    case Arrive(bytes) => 10 * bytes
    case Advance(_) => 10
    case SpuriousWait => 10
    case _ => 0
  }

  /** More to read or to wake on lowers the worker's rank, if it changes it at all. */
  lemma RankFalls(s: State, s': State)
    requires s'.worker == s.worker && s'.wake >= s.wake
    requires s'.inbox.socket >= s.inbox.socket && s'.inbox.buffered == s.inbox.buffered
    ensures Rank(s') <= Rank(s)
  {
  }

  lemma CallWorks(s: State, c: nat)
    requires PlacesOk(s) && Enabled(s, Advance(c))
    ensures Work(CallStep(s, c)) <= Work(s) + 10
  {
    CallStepAdds(s, c);
    RankFalls(s, CallStep(s, c));
  }

  lemma NetworkWorks(s: State, a: Action)
    requires PlacesOk(s) && Enabled(s, a) && (a.Arrive? || a.SpuriousWait? || a.FramesFail? || a.WaitFails?)
    ensures Work(Next(s, a)) <= Work(s) + Adds(a)
  {
    var s' := Next(s, a);
    assert s'.sent == s.sent && s'.done == s.done && s'.wake == s.wake && s'.inbox.buffered == s.inbox.buffered;
    if a.Arrive? { RankFalls(s, s'); } else { assert Rank(s') <= Rank(s) + 4 && s'.inbox == s.inbox; }
  }

  lemma OtherStepWorks(s: State, a: Action)
    requires PlacesOk(s) && !OwnWorker(a) && Enabled(s, a)
    ensures Work(Next(s, a)) <= Work(s) + Adds(a)
  {
    if a.Advance? {
      CallWorks(s, a.call);
    } else if a.WakeDropped? || a.BeginWrite? || a.BeginClose? {
      assert Next(s, a) == s.(calls := Next(s, a).calls);
    } else {
      NetworkWorks(s, a);
    }
  }

  function OwnSteps(run: seq<Action>): (n: nat) {
    if run == [] then 0 else (if OwnWorker(run[0]) then 1 else 0) + OwnSteps(run[1..])
  }

  function Added(run: seq<Action>): (n: nat) {
    if run == [] then 0 else Adds(run[0]) + Added(run[1..])
  }

  /**
   * In every run the worker's own steps are bounded by its work at the start
   * and what calls and network add to it. So unless bytes keep arriving it comes
   * to the Close in its queue, or to rest inside a frame.
   */
  lemma {:induction false} WorkerRunsEnd(s: State, run: seq<Action>)
    requires Inv(s) && Exec(s, run).Some?
    ensures OwnSteps(run) <= Work(s) + Added(run)
    decreases |run|
  {
    if run != [] {
      var a := run[0];
      StepKeeps(s, a);
      if OwnWorker(a) { OwnStepWorks(s, a); } else { OtherStepWorks(s, a); }
      WorkerRunsEnd(Next(s, a), run[1..]);
    }
  }

  // ---- A run that hangs ---------------------------------------------------

  lemma ExecFirst(s: State, a: Action, rest: seq<Action>)
    requires Inv(s) && Enabled(s, a) && Inv(Next(s, a))
    ensures Exec(s, [a] + rest) == Exec(Next(s, a), rest)
  {
    assert ([a] + rest)[1..] == rest;
  }

  lemma ExecOne(s: State, a: Action)
    requires Inv(s) && Enabled(s, a) && Inv(Next(s, a))
    ensures Exec(s, [a]) == Some(Next(s, a))
  {
    assert [a][1..] == [];
  }

  lemma Rotate(run: seq<Action>, a: Action)
    requires run != []
    ensures run + [a] == [run[0]] + (run[1..] + [a])
  {
  }

  lemma {:induction false} ExecOneMore(s: State, run: seq<Action>, a: Action, end: State)
    requires Inv(s) && Exec(s, run) == Some(end) && Enabled(end, a)
    ensures Exec(s, run + [a]) == Some(Next(end, a))
    decreases |run|
  {
    if run == [] {
      StepKeeps(s, a);
      ExecOne(s, a);
      assert run + [a] == [a];
    } else {
      StepKeeps(s, run[0]);
      ExecOneMore(Next(s, run[0]), run[1..], a, end);
      Rotate(run, a);
      ExecFirst(s, run[0], run[1..] + [a]);
    }
  }

  lemma InitialInv(n: nat)
    ensures Inv(Initial(n))
  {
  }

  lemma ReachStart(n: nat)
    ensures Reachable(Initial(n))
  {
    InitialInv(n);
    assert Exec(Initial(n), []) == Some(Initial(n));
  }

  lemma ReachBy(n: nat, run: seq<Action>, s: State)
    requires Inv(Initial(n)) && Exec(Initial(n), run) == Some(s)
    ensures Reachable(s)
  {
  }

  lemma ReachNext(s: State, a: Action)
    requires Reachable(s)
    ensures PlacesOk(s) && (Enabled(s, a) ==> Reachable(Next(s, a)))
  {
    var n: nat, run :| Exec(Initial(n), run) == Some(s);
    InitialInv(n);
    if Enabled(s, a) {
      ExecOneMore(Initial(n), run, a, s);
      ReachBy(n, run + [a], Next(s, a));
    }
  }

  /** One step of a run. */
  predicate Step(s: State, a: Action, s': State) {
    PlacesOk(s) && Enabled(s, a) && Next(s, a) == s'
  }

  lemma Take(s: State, a: Action, s': State)
    requires Reachable(s) && Step(s, a, s')
    ensures Reachable(s')
  {
    ReachNext(s, a);
  }

  /** The worker has the first byte of a frame and nothing else has happened. */
  const CUT := Initial(0).(worker := DrainingFrames(Header(1)))

  // A writer past the closed check, a closer past the swap, then Close and the write in the queue.
  const WRITING := CUT.(calls := map[0 := Writing([7])])
  const CHECKED := CUT.(calls := map[0 := Checked([7])])
  const CLOSING := CUT.(calls := map[0 := Checked([7]), 1 := Closing])
  const SWAPPED := CUT.(calls := map[0 := Checked([7]), 1 := SendingClose], closer := Some(1))
  const CLOSED := SWAPPED.(sent := [Close], closeAt := Some(0), calls := map[0 := Checked([7]), 1 := WakingForClose])
  const QUEUED := CLOSED.(sent := [Close, Write(0, [7])], calls := map[0 := Queued([7], 1), 1 := WakingForClose])
  const WOKEN := QUEUED.(wake := 1, calls := map[0 := AwaitingAck([7], 1), 1 := WakingForClose])
  const HUNG := QUEUED.(wake := 2, calls := map[0 := AwaitingAck([7], 1), 1 := Joining])

  lemma FrameBegins()
    ensures Step(Initial(1), ReadBytes(0, 1), CUT)
  {
  }

  lemma WriterBegins()
    ensures Step(CUT, BeginWrite(0, [7]), WRITING)
  {
  }

  lemma WriterChecks()
    ensures Step(WRITING, Advance(0), CHECKED)
  {
  }

  lemma CloserBegins()
    ensures Step(CHECKED, BeginClose(1), CLOSING)
  {
  }

  lemma CloserSwaps()
    ensures Step(CLOSING, Advance(1), SWAPPED)
  {
  }

  lemma CloserSends()
    ensures Step(SWAPPED, Advance(1), CLOSED)
  {
  }

  lemma WriterSends()
    ensures Step(CLOSED, Advance(0), QUEUED)
  {
  }

  lemma WriterWakes()
    ensures Step(QUEUED, Advance(0), WOKEN)
  {
  }

  lemma CloserWakes()
    ensures Step(WOKEN, Advance(1), HUNG)
  {
  }

  lemma TakeThree(s: State, a: Action, t: State, b: Action, u: State, c: Action, v: State)
    requires Reachable(s) && Step(s, a, t) && Step(t, b, u) && Step(u, c, v)
    ensures Reachable(v)
  {
    Take(s, a, t);
    Take(t, b, u);
    Take(u, c, v);
  }

  lemma HungReachable()
    ensures Reachable(HUNG)
  {
    ReachStart(1);
    FrameBegins();
    WriterBegins();
    WriterChecks();
    TakeThree(Initial(1), ReadBytes(0, 1), CUT, BeginWrite(0, [7]), WRITING, Advance(0), CHECKED);
    CloserBegins();
    CloserSwaps();
    CloserSends();
    TakeThree(CHECKED, BeginClose(1), CLOSING, Advance(1), SWAPPED, Advance(1), CLOSED);
    WriterSends();
    WriterWakes();
    CloserWakes();
    TakeThree(CLOSED, Advance(0), QUEUED, Advance(0), WOKEN, Advance(1), HUNG);
  }

  /** A worker held in a frame with its callers waiting leaves nothing to do but wait for the network. */
  lemma HeldRests(s: State)
    requires PlacesOk(s) && HeldInFrame(s) && s.done < |s.sent| && !s.failed
    requires forall c :: c in s.calls ==>
               s.calls[c].Joining? || (s.calls[c].AwaitingAck? && s.calls[c].at >= s.done)
    ensures AtRest(s)
  {
  }

  /**
   * A server that leaves a frame unfinished keeps both waiting: the write for
   * its error and the close for the worker's end.
   */
  lemma UnfinishedFrameHangsCalls() returns (s: State)
    ensures Reachable(s) && PlacesOk(s) && AtRest(s) && HeldInFrame(s)
    ensures s.sent == [Close, Write(0, [7])] && s.done == 0
    ensures 0 in s.calls && s.calls[0].AwaitingAck? && 1 in s.calls && s.calls[1].Joining?
  {
    HungReachable();
    s := HUNG;
    assert PlacesOk(s);
    HeldRests(s);
  }
}
