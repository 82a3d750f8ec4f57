/**
 * What can leave a packet writer waiting for an authorisation that does not
 * come: a claim that was given up, and the ways around the shutdown's sweep.
 */
module ConntrackWaiters {
  import opened Options
  import opened Conntrack

  // ---- Flows nobody asks for ----------------------------------------------

  /** The call that claimed the flow has yet to send its request. */
  predicate Asking(s: State, i: nat)
    requires i < |s.flows|
  {
    var d := s.flows[i].started;
    d.Some? && d.value in s.calls && (s.calls[d.value] == CheckOpen(i) || s.calls[d.value] == SendRequest(i))
  }

  /** The flow is claimed, but its request was not accepted and will not be sent. */
  predicate Unasked(s: State, i: nat)
    requires i < |s.flows|
  {
    s.flows[i].started.Some? && s.flows[i].requests == 0 && !Asking(s, i)
  }

  /**
   * A waiter without a result has its flow's request accepted, or still to come
   * from a call that can take its next step, or nothing coming; exactly one of
   * the three.
   */
  lemma WaiterHasExactlyOne(s: State, c: nat)
    requires Reachable(s) && c in s.calls && s.calls[c].Await? && s.calls[c].flow < |s.flows|
    ensures var i := s.calls[c].flow;
            && !(s.flows[i].requests == 1 && Asking(s, i))
            && (Unasked(s, i) <==> !(s.flows[i].requests == 1) && !Asking(s, i))
            && (Asking(s, i) ==> Enabled(s, Advance(s.flows[i].started.value)))
  {
    var i := s.calls[c].flow;
    assert Inv(s) && CallOk(s, c) && FlowOk(s, i);
    if Asking(s, i) { assert CallOk(s, s.flows[i].started.value); }
  }

  /** A step that leaves claim and request of a flow alone, and puts no call before its sending. */
  lemma UnaskedFrame(s: State, s': State, i: nat)
    requires i < |s.flows| && i < |s'.flows| && Unasked(s, i)
    requires s'.flows[i].started == s.flows[i].started && s'.flows[i].requests == s.flows[i].requests
    requires var d := s.flows[i].started.value;
             d in s'.calls && (s'.calls[d] == CheckOpen(i) || s'.calls[d] == SendRequest(i)) ==>
               d in s.calls && s'.calls[d] == s.calls[d]
    ensures Unasked(s', i)
  {
  }

  /** The steps of a call on its way to its request. */
  lemma AskingKeepsUnasked(s: State, c: nat, i: nat)
    requires InRange(s) && c in s.calls && CallOk(s, c) && i < |s.flows| && Unasked(s, i)
    requires s.calls[c].Claim? || s.calls[c].CheckOpen? || s.calls[c].SendRequest?
    ensures i < |CallStep(s, c).flows| && Unasked(CallStep(s, c), i)
  {
    var j := s.calls[c].flow;
    match s.calls[c] {
      case Claim(_) => ClaimWrites(s, c, j);
      case CheckOpen(_) => CheckWrites(s, c, j);
      case SendRequest(_) => RequestWrites(s, c, j);
    }
    UnaskedFrame(s, CallStep(s, c), i);
  }

  /** A step of call `c` that neither claims nor asks for flow `i`. */
  predicate Quiet(s: State, s': State, c: nat, i: nat)
    requires i < |s.flows|
  {
    && i < |s'.flows| && s'.flows[i] == s.flows[i]
    && c in s'.calls && s'.calls == s.calls[c := s'.calls[c]]
    && !s'.calls[c].CheckOpen? && !s'.calls[c].SendRequest?
  }

  lemma QuietFind(s: State, c: nat, i: nat)
    requires InRange(s) && Enabled(s, Advance(c)) && i < |s.flows|
    requires s.calls[c].Lookup? || s.calls[c].Create? || s.calls[c].InsertKey? || s.calls[c].InsertId?
    ensures Quiet(s, CallStep(s, c), c, i)
  {
  }

  lemma QuietObserve(s: State, c: nat, i: nat)
    requires InRange(s) && Enabled(s, Advance(c)) && i < |s.flows| && (s.calls[c].Ensure? || s.calls[c].Await?)
    ensures Quiet(s, CallStep(s, c), c, i)
  {
  }

  lemma QuietUse(s: State, c: nat, i: nat)
    requires InRange(s) && Enabled(s, Advance(c)) && i < |s.flows|
    requires s.calls[c].Authorized? || s.calls[c].CheckOpenData? || s.calls[c].SendData?
    ensures Quiet(s, CallStep(s, c), c, i)
  {
  }

  /** The other steps of a call neither claim nor ask. */
  lemma QuietCall(s: State, c: nat, i: nat)
    requires InRange(s) && Enabled(s, Advance(c)) && i < |s.flows|
    requires !s.calls[c].Claim? && !s.calls[c].CheckOpen? && !s.calls[c].SendRequest?
    ensures Quiet(s, CallStep(s, c), c, i)
  {
    if s.calls[c].Ensure? || s.calls[c].Await? {
      QuietObserve(s, c, i);
    } else if s.calls[c].Authorized? || s.calls[c].CheckOpenData? || s.calls[c].SendData? {
      QuietUse(s, c, i);
    } else {
      QuietFind(s, c, i);
    }
  }

  lemma CallKeepsUnasked(s: State, c: nat, i: nat)
    requires InRange(s) && Enabled(s, Advance(c)) && CallOk(s, c) && i < |s.flows| && Unasked(s, i)
    ensures i < |CallStep(s, c).flows| && Unasked(CallStep(s, c), i)
  {
    if s.calls[c].Claim? || s.calls[c].CheckOpen? || s.calls[c].SendRequest? {
      AskingKeepsUnasked(s, c, i);
    } else {
      QuietCall(s, c, i);
      UnaskedFrame(s, CallStep(s, c), i);
    }
  }

  lemma WorkerKeepsUnasked(s: State, i: nat)
    requires InRange(s) && Enabled(s, WorkerStep) && i < |s.flows| && Unasked(s, i)
    ensures i < |AdvanceWorker(s).flows| && Unasked(AdvanceWorker(s), i)
  {
    if s.worker.Answering? {
      AnswerWrites(s);
    } else if s.worker.Settling? {
      ResultWrites(s);
    }
    assert AdvanceWorker(s).calls == s.calls;
    UnaskedFrame(s, AdvanceWorker(s), i);
  }

  lemma FailKeepsUnasked(s: State, j: nat, i: nat)
    requires InRange(s) && Enabled(s, FailFlow(j)) && i < |s.flows| && Unasked(s, i)
    ensures i < |FailOne(s, j).flows| && Unasked(FailOne(s, j), i)
  {
    assert FailOne(s, j).calls == s.calls;
    UnaskedFrame(s, FailOne(s, j), i);
  }

  lemma OthersKeepUnasked(s: State, a: Action, i: nat)
    requires InRange(s) && Enabled(s, a) && !a.Advance? && !a.WorkerStep? && !a.FailFlow?
    requires i < |s.flows| && Unasked(s, i)
    ensures i < |Next(s, a).flows| && Unasked(Next(s, a), i)
  {
    assert Next(s, a).flows == s.flows;
    UnaskedFrame(s, Next(s, a), i);
  }

  lemma StepKeepsUnasked(s: State, a: Action, i: nat)
    requires Inv(s) && Enabled(s, a) && i < |s.flows| && Unasked(s, i)
    ensures i < |Next(s, a).flows| && Unasked(Next(s, a), i)
  {
    if a.Advance? {
      assert CallOk(s, a.call);
      CallKeepsUnasked(s, a.call, i);
    } else if a.WorkerStep? {
      WorkerKeepsUnasked(s, i);
    } else if a.FailFlow? {
      FailKeepsUnasked(s, a.flow, i);
    } else {
      OthersKeepUnasked(s, a, i);
    }
  }

  /** Once a flow has nothing coming, no run ever has a request for it accepted. */
  lemma {:induction false} UnaskedForever(s: State, run: seq<Action>, i: nat, end: State)
    requires Inv(s) && i < |s.flows| && Unasked(s, i) && Exec(s, run) == Some(end)
    ensures i < |end.flows| && Unasked(end, i)
    decreases |run|
  {
    if run != [] {
      var a := run[0];
      StepKeeps(s, a);
      StepKeepsUnasked(s, a, i);
      UnaskedForever(Next(s, a), run[1..], i, end);
    }
  }

  /** Only an answer for its id or the shutdown can still settle a flow. */
  lemma SettledOnlyBy(s: State, a: Action, i: nat)
    requires InRange(s) && Enabled(s, a) && i < |s.flows| && s.flows[i].result.None?
    requires a != FailFlow(i) && !(a.WorkerStep? && s.worker.Settling? && s.worker.flow == i)
    ensures i < |Next(s, a).flows| && Next(s, a).flows[i].result.None?
  {
    if a.Advance? {
      CallKeepsResult(s, a.call, i);
    } else if a.WorkerStep? && s.worker.Answering? {
      AnswerWrites(s);
    } else if a.WorkerStep? && s.worker.Settling? {
      ResultWrites(s);
    }
  }

  const KEY: Key := 7
  const NEW := Flow(1, None, None, 0, false, None)

  /** One step of a run. */
  predicate Step(s: State, a: Action, s': State) {
    InRange(s) && Enabled(s, a) && Next(s, a) == s'
  }

  lemma Take(s: State, a: Action, s': State)
    requires Reachable(s) && Step(s, a, s')
    ensures Reachable(s')
  {
    ReachNext(s, a);
  }

  /** The states of the stranding run: one flow, the first writer held before its by_id insert. */
  function Held(f: Flow, second: Pc, queue: seq<Command>): (s: State) {
    State([f], map[KEY := 0], map[], map[0 := InsertId(0), 1 := second], queue, false, false, Running, None, {})
  }

  lemma FirstWriterCreates()
    ensures Reachable(INITIAL.(flows := [NEW], calls := map[0 := InsertKey(KEY, 0)]))
  {
    ReachStart();
    var s1 := INITIAL.(calls := map[0 := Lookup(KEY)]);
    var s2 := INITIAL.(calls := map[0 := Create(KEY)]);
    assert Reachable(s1) by { Take(INITIAL, Begin(0, KEY), s1); }
    assert Reachable(s2) by { Take(s1, Advance(0), s2); }
    Take(s2, Advance(0), INITIAL.(flows := [NEW], calls := map[0 := InsertKey(KEY, 0)]));
  }

  lemma FirstWriterHeld()
    ensures Reachable(Held(NEW, Lookup(KEY), []))
  {
    FirstWriterCreates();
    var s3 := INITIAL.(flows := [NEW], calls := map[0 := InsertKey(KEY, 0)]);
    var s4 := s3.(byKey := map[KEY := 0], calls := map[0 := InsertId(0)]);
    assert Reachable(s4) by { Take(s3, Advance(0), s4); }
    Take(s4, Begin(1, KEY), Held(NEW, Lookup(KEY), []));
  }

  lemma SecondWriterFindsIt()
    ensures Reachable(Held(NEW, Ensure(0), []))
  {
    FirstWriterHeld();
    Take(Held(NEW, Lookup(KEY), []), Advance(1), Held(NEW, Ensure(0), []));
  }

  lemma SecondWriterSeesNoResult()
    ensures Reachable(Held(NEW, Claim(0), []))
  {
    SecondWriterFindsIt();
    Take(Held(NEW, Ensure(0), []), Advance(1), Held(NEW, Claim(0), []));
  }

  lemma SecondWriterClaims()
    ensures Reachable(Held(NEW.(started := Some(1)), CheckOpen(0), []))
  {
    SecondWriterSeesNoResult();
    Take(Held(NEW, Claim(0), []), Advance(1), Held(NEW.(started := Some(1)), CheckOpen(0), []));
  }

  lemma SecondWriterPassesTheCheck()
    ensures Reachable(Held(NEW.(started := Some(1)), SendRequest(0), []))
  {
    SecondWriterClaims();
    var g := NEW.(started := Some(1));
    Take(Held(g, CheckOpen(0), []), Advance(1), Held(g, SendRequest(0), []));
  }

  lemma SecondWriterWaits()
    ensures Reachable(Held(NEW.(started := Some(1), requests := 1), Await(0), [AuthRequest(1)]))
  {
    SecondWriterPassesTheCheck();
    var g := NEW.(started := Some(1));
    Take(Held(g, SendRequest(0), []), Advance(1), Held(g.(requests := 1), Await(0), [AuthRequest(1)]));
  }

  /** The worker stops and collects the flows to fail while by_id is still empty. */
  lemma CollectsNothing(w: State)
    requires Reachable(w) && w.worker.Running? && w.byId == map[]
    ensures Reachable(w.(worker := Failing({}), closeFlag := true, snapshot := Some({})))
  {
    var stopping := w.(worker := Stopping);
    var flagged := w.(worker := Flagged, closeFlag := true);
    assert flagged.byId.Values == {};
    assert Reachable(stopping) by { Take(w, BreakOff, stopping); }
    assert Reachable(flagged) by { Take(stopping, WorkerStep, flagged); }
    Take(flagged, WorkerStep, w.(worker := Failing({}), closeFlag := true, snapshot := Some({})));
  }

  lemma WorkerLeaves(w: State)
    requires Reachable(w) && w.worker == Failing({})
    ensures Reachable(w.(worker := Gone))
  {
    Take(w, WorkerStep, w.(worker := Gone));
  }

  /**
   * Registration before the close-flag check is needed. A second writer can
   * find the flow through by_key before the first has put it in by_id: its
   * request is accepted, the worker stops, and only the timeout is left to it.
   */
  lemma UnregisteredWaiterIsStranded() returns (s: State)
    ensures Reachable(s) && s.worker.Gone?
    ensures 1 in s.calls && s.calls[1] == Await(0) && |s.flows| == 1
    ensures s.flows[0].requests == 1 && s.flows[0].result.None? && !s.flows[0].openRegistered
    ensures !Enabled(s, Advance(1)) && Enabled(s, TimeOut(1))
  {
    SecondWriterWaits();
    var w := Held(NEW.(started := Some(1), requests := 1), Await(0), [AuthRequest(1)]);
    CollectsNothing(w);
    var failing := w.(worker := Failing({}), closeFlag := true, snapshot := Some({}));
    WorkerLeaves(failing);
    s := failing.(worker := Gone);
  }

  // The run that registers too late, state by state.
  const PASSED := Held(NEW.(started := Some(1)), SendRequest(0), [])
  const COLLECTED := PASSED.(worker := Failing({}), closeFlag := true, snapshot := Some({}))
  const LATE := COLLECTED.(byId := map[1 := 0], calls := map[0 := Ensure(0), 1 := SendRequest(0)])
  const ACCEPTED := LATE.(flows := [NEW.(started := Some(1), requests := 1)], queue := [AuthRequest(1)],
                          calls := map[0 := Ensure(0), 1 := Await(0)])

  lemma CollectedReachable()
    ensures Reachable(COLLECTED)
  {
    SecondWriterPassesTheCheck();
    CollectsNothing(PASSED);
  }

  lemma FirstRegistersLate()
    ensures Step(COLLECTED, Advance(0), LATE)
  {
  }

  lemma SecondIsAccepted()
    ensures Step(LATE, Advance(1), ACCEPTED)
  {
  }

  lemma LateReachable()
    ensures Reachable(LATE)
  {
    CollectedReachable();
    FirstRegistersLate();
    Take(COLLECTED, Advance(0), LATE);
  }

  lemma AcceptedReachable()
    ensures Reachable(ACCEPTED)
  {
    LateReachable();
    SecondIsAccepted();
    Take(LATE, Advance(1), ACCEPTED);
  }

  /**
   * The close-flag check is the boundary, not the acceptance of the request: a
   * flow registered before its request is accepted, but after the worker has
   * collected, is left without a result just the same.
   */
  lemma RegisteredBeforeAcceptanceIsStranded() returns (s: State)
    ensures Reachable(s) && s.worker.Gone?
    ensures 1 in s.byId && s.byId[1] == 0 && 1 in s.calls && s.calls[1] == Await(0) && |s.flows| == 1
    ensures s.flows[0].requests == 1 && s.flows[0].result.None? && !s.flows[0].openRegistered
    ensures !Enabled(s, Advance(1)) && Enabled(s, TimeOut(1))
  {
    AcceptedReachable();
    WorkerLeaves(ACCEPTED);
    s := ACCEPTED.(worker := Gone);
  }

  // A run whose claimant gives up: the request cannot be built, and a second writer waits for it.
  const CREATED := INITIAL.(flows := [NEW], calls := map[0 := InsertKey(KEY, 0)])
  const KEYED := CREATED.(byKey := map[KEY := 0], calls := map[0 := InsertId(0)])
  const LISTED := KEYED.(byId := map[1 := 0], calls := map[0 := Ensure(0)])
  const LOOKED := LISTED.(calls := map[0 := Claim(0)])
  const CLAIMED := LISTED.(flows := [NEW.(started := Some(0))], calls := map[0 := CheckOpen(0)])
  const GIVEN_UP := CLAIMED.(calls := map[0 := Finished(BuildFailed)])

  function SecondAt(pc: Pc): (s: State) {
    At(GIVEN_UP, 1, pc)
  }

  lemma ClaimantKeys()
    ensures Step(CREATED, Advance(0), KEYED)
  {
  }

  lemma ClaimantLists()
    ensures Step(KEYED, Advance(0), LISTED)
  {
  }

  lemma ClaimantLooks()
    ensures Step(LISTED, Advance(0), LOOKED)
  {
  }

  lemma ClaimantClaims()
    ensures Step(LOOKED, Advance(0), CLAIMED)
  {
  }

  lemma ClaimantGivesUp()
    ensures Step(CLAIMED, FailBuild(0), GIVEN_UP)
  {
  }

  lemma SecondBegins()
    ensures Step(GIVEN_UP, Begin(1, KEY), SecondAt(Lookup(KEY)))
  {
  }

  lemma AtTwice(s: State, c: nat, p: Pc, q: Pc)
    ensures At(At(s, c, p), c, q) == At(s, c, q)
  {
    assert s.calls[c := p][c := q] == s.calls[c := q];
  }

  lemma SecondFinds()
    ensures Step(SecondAt(Lookup(KEY)), Advance(1), SecondAt(Ensure(0)))
  {
    AtTwice(GIVEN_UP, 1, Lookup(KEY), Ensure(0));
  }

  lemma SecondLooks()
    ensures Step(SecondAt(Ensure(0)), Advance(1), SecondAt(Claim(0)))
  {
    AtTwice(GIVEN_UP, 1, Ensure(0), Claim(0));
  }

  lemma SecondWaits()
    ensures Step(SecondAt(Claim(0)), Advance(1), SecondAt(Await(0)))
  {
    AtTwice(GIVEN_UP, 1, Claim(0), Await(0));
  }

  lemma TakeTwo(s: State, a: Action, t: State, b: Action, u: State)
    requires Reachable(s) && Step(s, a, t) && Step(t, b, u)
    ensures Reachable(u)
  {
    Take(s, a, t);
    Take(t, b, u);
  }

  lemma ClaimedReachable()
    ensures Reachable(CLAIMED)
  {
    FirstWriterCreates();
    ClaimantKeys();
    ClaimantLists();
    TakeTwo(CREATED, Advance(0), KEYED, Advance(0), LISTED);
    ClaimantLooks();
    ClaimantClaims();
    TakeTwo(LISTED, Advance(0), LOOKED, Advance(0), CLAIMED);
  }

  lemma SecondWaitsReachable()
    ensures Reachable(SecondAt(Await(0)))
  {
    ClaimedReachable();
    ClaimantGivesUp();
    SecondBegins();
    TakeTwo(CLAIMED, FailBuild(0), GIVEN_UP, Begin(1, KEY), SecondAt(Lookup(KEY)));
    SecondFinds();
    SecondLooks();
    TakeTwo(SecondAt(Lookup(KEY)), Advance(1), SecondAt(Ensure(0)), Advance(1), SecondAt(Claim(0)));
    SecondWaits();
    Take(SecondAt(Claim(0)), Advance(1), SecondAt(Await(0)));
  }

  /**
   * A claimant that fails before its request is accepted leaves the flow
   * claimed: later writers wait for an answer nobody asked for, until they time
   * out, although the remote is open and its worker runs.
   */
  lemma AbandonedClaimStrandsWriters() returns (s: State)
    ensures Reachable(s) && s.worker.Running? && !s.closeFlag
    ensures |s.flows| == 1 && Unasked(s, 0) && s.flows[0].result.None?
    ensures 1 in s.calls && s.calls[1] == Await(0) && !Enabled(s, Advance(1)) && Enabled(s, TimeOut(1))
  {
    SecondWaitsReachable();
    s := SecondAt(Await(0));
  }
}
