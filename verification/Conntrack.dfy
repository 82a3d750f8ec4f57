/**
 * Per-flow authorisation of an L3 remote: packet writers and the I/O worker as
 * a state machine whose steps are the code's atomic actions (one lock section,
 * one atomic load or swap, one channel operation). A run is any interleaving.
 */
module Conntrack {
  import opened Options

  /** A flow's key. Its text (both endpoints of the packet) plays no part in the protocol. */
  type Key = nat

  /** `started` names the call that won the compare-exchange on `auth_started`. */
  datatype Flow = Flow(
    authId: nat,
    token: Option<string>,
    started: Option<nat>,
    requests: nat,          // auth requests the command channel accepted for this flow
    openRegistered: bool,   // in by_id when its request passed the close-flag check
    result: Option<bool>)   // Some(true) is Ok(()), Some(false) an error

  datatype Ending = Sent | Refused | TimedOut | RemoteClosed | BuildFailed | MissingToken

  /** Where a `write_packet` call stands. */
  datatype Pc =
    | Lookup(key: Key)
    | Create(key: Key)
    | InsertKey(key: Key, flow: nat)
    | InsertId(flow: nat)
    | Ensure(flow: nat)
    | Claim(flow: nat)
    | CheckOpen(flow: nat)
    | SendRequest(flow: nat)
    | Await(flow: nat)
    | Authorized(flow: nat)
    | CheckOpenData(token: string)
    | SendData(token: string)
    | Finished(ending: Ending)
  {
    predicate OnFlow() {
      InsertKey? || InsertId? || Ensure? || Claim? || CheckOpen? || SendRequest? || Await? || Authorized?
    }
  }

  datatype Command = AuthRequest(authId: nat) | Packet(token: string) | Close

  datatype Worker =
    | Running
    | Answering(flow: nat, token: Option<string>)  // response matched to its flow
    | Settling(flow: nat, ok: bool)                // token stored, result not yet
    | Stopping                                     // the loop returned
    | Flagged                                      // close_flag stored
    | Failing(todo: set<nat>)                      // inside fail_pending
    | Gone                                         // command receiver dropped

  datatype State = State(
    flows: seq<Flow>,
    byKey: map<Key, nat>,
    byId: map<nat, nat>,
    calls: map<nat, Pc>,
    queue: seq<Command>,
    closeFlag: bool,
    closing: bool,                 // close() swapped the flag and has yet to send Close
    worker: Worker,
    snapshot: Option<set<nat>>,    // what fail_pending collected
    replies: set<(nat, string)>)   // tokens the server has returned, by conntrack id

  datatype Action =
    | Begin(call: nat, key: Key)
    | Advance(call: nat)
    | FailBuild(call: nat)
    | TimeOut(call: nat)
    | RequestClose
    | SendClose
    | TakeCommand
    | Respond(authId: nat, code: int, token: string)
    | WorkerStep
    | FailFlow(flow: nat)
    | BreakOff

  const INITIAL := State([], map[], map[], map[], [], false, false, Running, None, {})

  // ---- Steps --------------------------------------------------------------

  function At(s: State, call: nat, pc: Pc): (s': State) {
    s.(calls := s.calls[call := pc])
  }

  function Put(s: State, i: nat, f: Flow): (s': State)
    requires i < |s.flows|
  {
    s.(flows := s.flows[i := f])
  }

  /** References in range: what every step may rely on to index. */
  predicate InRange(s: State) {
    && (forall k :: k in s.byKey ==> s.byKey[k] < |s.flows|)
    && (forall id :: id in s.byId ==> s.byId[id] < |s.flows|)
    && (forall c :: c in s.calls && s.calls[c].OnFlow() ==> s.calls[c].flow < |s.flows|)
    && (s.worker.Answering? || s.worker.Settling? ==> s.worker.flow < |s.flows|)
    && (s.worker.Failing? ==> forall f :: f in s.worker.todo ==> f < |s.flows|)
  }

  predicate Enabled(s: State, a: Action) {
    match a
    case Begin(c, _) => c !in s.calls
    case Advance(c) =>
      c in s.calls && !s.calls[c].Finished? &&
      (s.calls[c].Await? ==> s.calls[c].flow < |s.flows| && s.flows[s.calls[c].flow].result.Some?)
    case FailBuild(c) => c in s.calls && s.calls[c].CheckOpen?
    case TimeOut(c) =>
      c in s.calls && s.calls[c].Await? && s.calls[c].flow < |s.flows| && s.flows[s.calls[c].flow].result.None?
    case RequestClose => true
    case SendClose => s.closing
    case TakeCommand => s.worker.Running? && s.queue != []
    case Respond(_, _, _) => s.worker.Running?
    case WorkerStep =>
      !s.worker.Running? && !s.worker.Gone? && (s.worker.Failing? ==> s.worker.todo == {})
    case FailFlow(f) => s.worker.Failing? && f in s.worker.todo
    case BreakOff => s.worker.Running?
  }

  /** Reading `auth_result`, as `ensure_auth` does before and while waiting. */
  function Observe(s: State, c: nat, i: nat): (s': State)
    requires i < |s.flows|
  {
    match s.flows[i].result
    case Some(ok) => At(s, c, if ok then Authorized(i) else Finished(Refused))
    case None => At(s, c, Claim(i))
  }

  function CallStep(s: State, c: nat): (s': State)
    requires InRange(s) && Enabled(s, Advance(c))
  {
    match s.calls[c]
    case Lookup(key) => At(s, c, if key in s.byKey then Ensure(s.byKey[key]) else Create(key))
    case Create(key) =>
      At(s.(flows := s.flows + [Flow(|s.flows| + 1, None, None, 0, false, None)]), c, InsertKey(key, |s.flows|))
    case InsertKey(key, i) => At(s.(byKey := s.byKey[key := i]), c, InsertId(i))
    case InsertId(i) => At(s.(byId := s.byId[s.flows[i].authId := i]), c, Ensure(i))
    case Ensure(i) => Observe(s, c, i)
    case Claim(i) =>
      if s.flows[i].started.Some? then At(s, c, Await(i))
      else At(Put(s, i, s.flows[i].(started := Some(c))), c, CheckOpen(i))
    case CheckOpen(i) =>
      if s.closeFlag then At(s, c, Finished(RemoteClosed))
      else At(Put(s, i, s.flows[i].(openRegistered := s.flows[i].authId in s.byId)), c, SendRequest(i))
    case SendRequest(i) =>
      if s.worker.Gone? then At(s, c, Finished(RemoteClosed))
      else At(Put(s, i, s.flows[i].(requests := s.flows[i].requests + 1))
              .(queue := s.queue + [AuthRequest(s.flows[i].authId)]), c, Await(i))
    case Await(i) => Observe(s, c, i)
    case Authorized(i) =>
      (match s.flows[i].token
       case Some(t) => At(s, c, CheckOpenData(t))
       case None => At(s, c, Finished(MissingToken)))
    case CheckOpenData(t) => At(s, c, if s.closeFlag then Finished(RemoteClosed) else SendData(t))
    case SendData(t) =>
      if s.worker.Gone? then At(s, c, Finished(RemoteClosed))
      else At(s.(queue := s.queue + [Packet(t)]), c, Finished(Sent))
    case Finished(_) => s
  }

  function AdvanceWorker(s: State): (s': State)
    requires InRange(s) && Enabled(s, WorkerStep)
  {
    match s.worker
    case Answering(i, t) =>
      if t.Some? then Put(s, i, s.flows[i].(token := t)).(worker := Settling(i, true))
      else s.(worker := Settling(i, false))
    case Settling(i, ok) => Put(s, i, s.flows[i].(result := Some(ok))).(worker := Running)
    case Stopping => s.(closeFlag := true, worker := Flagged)
    case Flagged => s.(worker := Failing(s.byId.Values), snapshot := Some(s.byId.Values))
    case _ => s.(worker := Gone)
  }

  function FailOne(s: State, i: nat): (s': State)
    requires InRange(s) && Enabled(s, FailFlow(i))
  {
    var rest := s.(worker := Failing(s.worker.todo - {i}));
    if s.flows[i].result.Some? then rest else Put(rest, i, s.flows[i].(result := Some(false)))
  }

  function Next(s: State, a: Action): (s': State)
    requires InRange(s) && Enabled(s, a)
  {
    match a
    case Begin(c, key) => At(s, c, Lookup(key))
    case Advance(c) => CallStep(s, c)
    case FailBuild(c) => At(s, c, Finished(BuildFailed))
    case TimeOut(c) => At(s, c, Finished(TimedOut))
    case RequestClose => s.(closeFlag := true, closing := s.closing || !s.closeFlag)
    case SendClose => s.(closing := false, queue := if s.worker.Gone? then s.queue else s.queue + [Close])
    case TakeCommand => s.(queue := s.queue[1..], worker := if s.queue[0].Close? then Stopping else Running)
    case Respond(id, code, token) =>
      var answered := s.(replies := s.replies + {(id, token)});
      if id !in s.byId then answered
      else answered.(worker := Answering(s.byId[id], if code == 0 && token != "" then Some(token) else None))
    case WorkerStep => AdvanceWorker(s)
    case FailFlow(f) => FailOne(s, f)
    case BreakOff => s.(worker := Stopping)
  }

  // ---- What every step keeps ----------------------------------------------

  predicate Registered(s: State, i: nat)
    requires i < |s.flows|
  {
    s.flows[i].authId in s.byId
  }

  /** A flow's own fields agree with each other and with what the server sent. */
  predicate FlowOk(s: State, i: nat)
    requires i < |s.flows|
  {
    var f := s.flows[i];
    && f.authId == i + 1
    && f.requests <= 1
    && (f.requests == 1 ==> f.started.Some?)
    && (f.token.Some? ==> f.token.value != "" && (f.authId, f.token.value) in s.replies)
    && (f.result == Some(true) ==> f.token.Some?)
    && (f.result.Some? || f.openRegistered ==> Registered(s, i))
    && (s.snapshot.Some? && (f.result.Some? || f.openRegistered) ==> i in s.snapshot.value)
  }

  predicate CallOk(s: State, c: nat)
    requires InRange(s) && c in s.calls
  {
    var pc := s.calls[c];
    && (pc.CheckOpen? || pc.SendRequest? ==> s.flows[pc.flow].started == Some(c) && s.flows[pc.flow].requests == 0)
    && (pc.Authorized? ==> s.flows[pc.flow].token.Some?)
    && (pc.Await? ==> s.flows[pc.flow].started.Some?)
    && pc != Finished(MissingToken)
  }

  predicate WorkerOk(s: State)
    requires InRange(s)
  {
    && (s.worker.Answering? ==>
          Registered(s, s.worker.flow) && s.snapshot.None? &&
          (s.worker.token.Some? ==>
             s.worker.token.value != "" && (s.flows[s.worker.flow].authId, s.worker.token.value) in s.replies))
    && (s.worker.Settling? ==> Registered(s, s.worker.flow) && s.snapshot.None?)
    && (s.worker.Settling? && s.worker.ok ==> s.flows[s.worker.flow].token.Some?)
    && (s.worker.Flagged? || s.worker.Failing? || s.worker.Gone? ==> s.closeFlag)
    && (s.snapshot.Some? <==> s.worker.Failing? || s.worker.Gone?)
  }

  /** What fail_pending collected was registered, and how far it has come through it. */
  predicate Drained(s: State)
    requires InRange(s)
  {
    var todo := if s.worker.Failing? then s.worker.todo else {};
    s.snapshot.Some? ==>
      && todo <= s.snapshot.value
      && forall i :: i in s.snapshot.value ==>
           i < |s.flows| && Registered(s, i) && (i in todo || s.flows[i].result.Some?)
  }

  predicate Inv(s: State) {
    && InRange(s)
    && (forall i :: 0 <= i < |s.flows| ==> FlowOk(s, i))
    && (forall id :: id in s.byId ==> s.byId[id] == id - 1)  // flow i carries id i + 1
    && (forall c :: c in s.calls ==> CallOk(s, c))
    && WorkerOk(s)
    && Drained(s)
  }

  /** A step that only moves one call on. */
  lemma MoveKeeps(s: State, c: nat, pc: Pc)
    requires Inv(s)
    requires pc.OnFlow() ==> pc.flow < |s.flows|
    requires CallOk(At(s, c, pc), c)
    ensures Inv(At(s, c, pc))
  {
    var s' := At(s, c, pc);
    forall i | 0 <= i < |s'.flows| ensures FlowOk(s', i) { assert FlowOk(s, i); }
    forall d | d in s'.calls ensures CallOk(s', d) { if d != c { assert CallOk(s, d); } }
  }

  /** A step that only changes one flow, and never unsettles it or takes its token away. */
  lemma PutKeeps(s: State, i: nat, f: Flow)
    requires Inv(s) && i < |s.flows| && f.authId == s.flows[i].authId
    requires s.flows[i].result.Some? ==> f.result.Some?
    requires s.flows[i].token.Some? ==> f.token.Some?
    requires s.flows[i].started.Some? ==> f.started.Some?
    requires FlowOk(Put(s, i, f), i)
    requires forall c :: c in s.calls ==> CallOk(Put(s, i, f), c)
    ensures Inv(Put(s, i, f))
  {
    var s' := Put(s, i, f);
    forall j | 0 <= j < |s'.flows| ensures FlowOk(s', j) { if j != i { assert FlowOk(s, j); } }
  }

  lemma CreateKeeps(s: State, c: nat, key: Key)
    requires Inv(s)
    ensures Inv(At(s.(flows := s.flows + [Flow(|s.flows| + 1, None, None, 0, false, None)]), c,
                   InsertKey(key, |s.flows|)))
  {
    var mid := s.(flows := s.flows + [Flow(|s.flows| + 1, None, None, 0, false, None)]);
    forall i | 0 <= i < |mid.flows| ensures FlowOk(mid, i) { if i < |s.flows| { assert FlowOk(s, i); } }
    forall d | d in mid.calls ensures CallOk(mid, d) { assert CallOk(s, d); }
    MoveKeeps(mid, c, InsertKey(key, |s.flows|));
  }

  lemma RegisterKeeps(s: State, c: nat, i: nat)
    requires Inv(s) && i < |s.flows|
    ensures Inv(At(s.(byId := s.byId[s.flows[i].authId := i]), c, Ensure(i)))
  {
    assert FlowOk(s, i);
    var mid := s.(byId := s.byId[s.flows[i].authId := i]);
    forall j | 0 <= j < |mid.flows| ensures FlowOk(mid, j) { assert FlowOk(s, j); }
    forall d | d in mid.calls ensures CallOk(mid, d) { assert CallOk(s, d); }
    MoveKeeps(mid, c, Ensure(i));
  }

  lemma StartKeeps(s: State, c: nat, i: nat)
    requires Inv(s) && i < |s.flows| && s.flows[i].started.None?
    ensures Inv(Put(s, i, s.flows[i].(started := Some(c))))
  {
    assert FlowOk(s, i);
    var g := s.flows[i].(started := Some(c));
    forall d | d in s.calls ensures CallOk(Put(s, i, g), d) { assert CallOk(s, d); }
    PutKeeps(s, i, g);
  }

  lemma ClaimKeeps(s: State, c: nat, i: nat)
    requires Inv(s) && c in s.calls && s.calls[c] == Claim(i)
    ensures Inv(CallStep(s, c))
  {
    if s.flows[i].started.None? {
      assert FlowOk(s, i);
      StartKeeps(s, c, i);
      MoveKeeps(Put(s, i, s.flows[i].(started := Some(c))), c, CheckOpen(i));
    } else {
      MoveKeeps(s, c, Await(i));
    }
  }

  lemma CheckOpenKeeps(s: State, c: nat, i: nat)
    requires Inv(s) && c in s.calls && s.calls[c] == CheckOpen(i)
    ensures Inv(CallStep(s, c))
  {
    assert FlowOk(s, i) && CallOk(s, c);
    if s.closeFlag {
      MoveKeeps(s, c, Finished(RemoteClosed));
    } else {
      var g := s.flows[i].(openRegistered := s.flows[i].authId in s.byId);
      forall d | d in s.calls ensures CallOk(Put(s, i, g), d) { assert CallOk(s, d); }
      PutKeeps(s, i, g);
      MoveKeeps(Put(s, i, g), c, SendRequest(i));
    }
  }

  lemma RequestKeeps(s: State, c: nat, i: nat)
    requires Inv(s) && c in s.calls && s.calls[c] == SendRequest(i)
    ensures Inv(Put(At(s, c, Await(i)), i, s.flows[i].(requests := s.flows[i].requests + 1)))
  {
    assert FlowOk(s, i) && CallOk(s, c);
    MoveKeeps(s, c, Await(i));
    var moved, g := At(s, c, Await(i)), s.flows[i].(requests := s.flows[i].requests + 1);
    forall d | d in moved.calls ensures CallOk(Put(moved, i, g), d) { assert CallOk(moved, d); }
    PutKeeps(moved, i, g);
  }

  lemma QueueKeeps(s: State, queue: seq<Command>)
    requires Inv(s)
    ensures Inv(s.(queue := queue))
  {
    var s' := s.(queue := queue);
    forall i | 0 <= i < |s'.flows| ensures FlowOk(s', i) { assert FlowOk(s, i); }
    forall d | d in s'.calls ensures CallOk(s', d) { assert CallOk(s, d); }
  }

  lemma SendRequestKeeps(s: State, c: nat, i: nat)
    requires Inv(s) && c in s.calls && s.calls[c] == SendRequest(i)
    ensures Inv(CallStep(s, c))
  {
    if s.worker.Gone? {
      MoveKeeps(s, c, Finished(RemoteClosed));
    } else {
      RequestKeeps(s, c, i);
      var sent := Put(At(s, c, Await(i)), i, s.flows[i].(requests := s.flows[i].requests + 1));
      var queue := s.queue + [AuthRequest(s.flows[i].authId)];
      QueueKeeps(sent, queue);
      assert CallStep(s, c) == sent.(queue := queue);
    }
  }

  lemma InsertKeyKeeps(s: State, c: nat, key: Key, i: nat)
    requires Inv(s) && i < |s.flows|
    ensures Inv(At(s.(byKey := s.byKey[key := i]), c, InsertId(i)))
  {
    var mid := s.(byKey := s.byKey[key := i]);
    forall j | 0 <= j < |mid.flows| ensures FlowOk(mid, j) { assert FlowOk(s, j); }
    forall d | d in mid.calls ensures CallOk(mid, d) { assert CallOk(s, d); }
    MoveKeeps(mid, c, InsertId(i));
  }

  lemma SendDataKeeps(s: State, c: nat, t: string)
    requires Inv(s)
    ensures Inv(At(s, c, Finished(RemoteClosed)))
    ensures Inv(At(s.(queue := s.queue + [Packet(t)]), c, Finished(Sent)))
  {
    MoveKeeps(s, c, Finished(RemoteClosed));
    QueueKeeps(s, s.queue + [Packet(t)]);
    MoveKeeps(s.(queue := s.queue + [Packet(t)]), c, Finished(Sent));
  }

  /** The steps that find or make a flow. */
  lemma FindStepKeeps(s: State, c: nat)
    requires Inv(s) && Enabled(s, Advance(c))
    requires s.calls[c].Lookup? || s.calls[c].Create? || s.calls[c].InsertKey? || s.calls[c].InsertId?
    ensures Inv(CallStep(s, c))
  {
    match s.calls[c] {
      case Lookup(key) => MoveKeeps(s, c, if key in s.byKey then Ensure(s.byKey[key]) else Create(key));
      case Create(key) => CreateKeeps(s, c, key);
      case InsertKey(key, i) => InsertKeyKeeps(s, c, key, i);
      case InsertId(i) => RegisterKeeps(s, c, i);
    }
  }

  /** The steps that use a flow once it is authorised. */
  lemma UseStepKeeps(s: State, c: nat)
    requires Inv(s) && Enabled(s, Advance(c))
    requires s.calls[c].Authorized? || s.calls[c].CheckOpenData? || s.calls[c].SendData?
    ensures Inv(CallStep(s, c))
  {
    assert CallOk(s, c);
    match s.calls[c] {
      case Authorized(i) => MoveKeeps(s, c, CheckOpenData(s.flows[i].token.value));
      case CheckOpenData(t) => MoveKeeps(s, c, if s.closeFlag then Finished(RemoteClosed) else SendData(t));
      case SendData(t) => SendDataKeeps(s, c, t);
    }
  }

  lemma ObserveKeeps(s: State, c: nat, i: nat)
    requires Inv(s) && i < |s.flows|
    ensures Inv(Observe(s, c, i))
  {
    assert FlowOk(s, i);
    match s.flows[i].result
    case Some(ok) => MoveKeeps(s, c, if ok then Authorized(i) else Finished(Refused));
    case None => MoveKeeps(s, c, Claim(i));
  }

  lemma CallStepKeeps(s: State, c: nat)
    requires Inv(s) && Enabled(s, Advance(c))
    ensures Inv(CallStep(s, c))
  {
    match s.calls[c] {
      case Lookup(_) => FindStepKeeps(s, c);
      case Create(_) => FindStepKeeps(s, c);
      case InsertKey(_, _) => FindStepKeeps(s, c);
      case InsertId(_) => FindStepKeeps(s, c);
      case Authorized(_) => UseStepKeeps(s, c);
      case CheckOpenData(_) => UseStepKeeps(s, c);
      case SendData(_) => UseStepKeeps(s, c);
      case Ensure(i) => ObserveKeeps(s, c, i);
      case Await(i) => ObserveKeeps(s, c, i);
      case Claim(i) => ClaimKeeps(s, c, i);
      case CheckOpen(i) => CheckOpenKeeps(s, c, i);
      case SendRequest(i) => SendRequestKeeps(s, c, i);
    }
  }

  /** A worker step that touches neither flows nor calls. */
  lemma WorkerMoves(s: State, w: Worker)
    requires Inv(s) && InRange(s.(worker := w)) && WorkerOk(s.(worker := w)) && Drained(s.(worker := w))
    ensures Inv(s.(worker := w))
  {
    var s' := s.(worker := w);
    forall i | 0 <= i < |s'.flows| ensures FlowOk(s', i) { assert FlowOk(s, i); }
    forall d | d in s'.calls ensures CallOk(s', d) { assert CallOk(s, d); }
  }

  /** Storing an answer: first the token, then the result. */
  lemma TokenKeeps(s: State, i: nat, t: string)
    requires Inv(s) && s.worker == Answering(i, Some(t))
    ensures Inv(AdvanceWorker(s))
  {
    assert FlowOk(s, i);
    var g := s.flows[i].(token := Some(t));
    forall d | d in s.calls ensures CallOk(Put(s, i, g), d) { assert CallOk(s, d); }
    PutKeeps(s, i, g);
    WorkerMoves(Put(s, i, g), Settling(i, true));
  }

  lemma ResultKeeps(s: State, i: nat, ok: bool)
    requires Inv(s) && s.worker == Settling(i, ok)
    ensures Inv(AdvanceWorker(s))
  {
    assert FlowOk(s, i);
    var g := s.flows[i].(result := Some(ok));
    forall d | d in s.calls ensures CallOk(Put(s, i, g), d) { assert CallOk(s, d); }
    PutKeeps(s, i, g);
    WorkerMoves(Put(s, i, g), Running);
  }

  lemma CollectKeeps(s: State)
    requires Inv(s) && s.worker.Flagged?
    ensures Inv(AdvanceWorker(s))
  {
    var s' := AdvanceWorker(s);
    forall i | 0 <= i < |s'.flows| ensures FlowOk(s', i) {
      assert FlowOk(s, i);
      if Registered(s, i) { assert s.byId[i + 1] in s.byId.Values; }
    }
    forall d | d in s'.calls ensures CallOk(s', d) { assert CallOk(s, d); }
    forall i | i in s'.snapshot.value ensures i < |s.flows| && Registered(s', i) {
      var id :| id in s.byId && s.byId[id] == i;
      assert FlowOk(s, i);
    }
  }

  lemma FlagKeeps(s: State, flag: bool, closing: bool)
    requires Inv(s) && (s.closeFlag ==> flag)
    ensures Inv(s.(closeFlag := flag, closing := closing))
  {
    var s' := s.(closeFlag := flag, closing := closing);
    forall i | 0 <= i < |s'.flows| ensures FlowOk(s', i) { assert FlowOk(s, i); }
    forall d | d in s'.calls ensures CallOk(s', d) { assert CallOk(s, d); }
  }

  lemma StoppingKeeps(s: State)
    requires Inv(s) && s.worker.Stopping?
    ensures Inv(s.(closeFlag := true, worker := Flagged))
  {
    FlagKeeps(s, true, s.closing);
    WorkerMoves(s.(closeFlag := true), Flagged);
  }

  lemma WorkerStepKeeps(s: State)
    requires Inv(s) && Enabled(s, WorkerStep)
    ensures Inv(AdvanceWorker(s))
  {
    match s.worker {
      case Answering(i, t) => if t.Some? { TokenKeeps(s, i, t.value); } else { WorkerMoves(s, Settling(i, false)); }
      case Settling(i, ok) => ResultKeeps(s, i, ok);
      case Stopping => StoppingKeeps(s);
      case Flagged => CollectKeeps(s);
      case _ => WorkerMoves(s, Gone);
    }
  }

  lemma ReplyKeeps(s: State, id: nat, token: string)
    requires Inv(s)
    ensures Inv(s.(replies := s.replies + {(id, token)}))
  {
    var s' := s.(replies := s.replies + {(id, token)});
    forall i | 0 <= i < |s'.flows| ensures FlowOk(s', i) { assert FlowOk(s, i); }
    forall d | d in s'.calls ensures CallOk(s', d) { assert CallOk(s, d); }
  }

  lemma RespondKeeps(s: State, id: nat, code: int, token: string)
    requires Inv(s) && s.worker.Running?
    ensures Inv(Next(s, Respond(id, code, token)))
  {
    var mid := s.(replies := s.replies + {(id, token)});
    ReplyKeeps(s, id, token);
    if id in s.byId {
      assert FlowOk(s, s.byId[id]);
      var w := Answering(s.byId[id], if code == 0 && token != "" then Some(token) else None);
      WorkerMoves(mid, w);
      assert Next(s, Respond(id, code, token)) == mid.(worker := w);
    }
  }

  lemma FailOneKeeps(s: State, i: nat)
    requires Inv(s) && Enabled(s, FailFlow(i))
    ensures Inv(FailOne(s, i))
    ensures s.flows[i].result.Some? ==> FailOne(s, i).flows == s.flows
  {
    var s' := FailOne(s, i);
    assert Registered(s, i);
    forall j | 0 <= j < |s'.flows| ensures FlowOk(s', j) { assert FlowOk(s, j); }
    forall d | d in s'.calls ensures CallOk(s', d) { assert CallOk(s, d); }
  }

  lemma SendCloseKeeps(s: State)
    requires Inv(s)
    ensures Inv(s.(closing := false, queue := if s.worker.Gone? then s.queue else s.queue + [Close]))
  {
    FlagKeeps(s, s.closeFlag, false);
    QueueKeeps(s.(closing := false), if s.worker.Gone? then s.queue else s.queue + [Close]);
  }

  lemma TakeCommandKeeps(s: State)
    requires Inv(s) && s.worker.Running? && s.queue != []
    ensures Inv(s.(queue := s.queue[1..], worker := if s.queue[0].Close? then Stopping else Running))
  {
    QueueKeeps(s, s.queue[1..]);
    WorkerMoves(s.(queue := s.queue[1..]), if s.queue[0].Close? then Stopping else Running);
  }

  lemma OtherStepKeeps(s: State, a: Action)
    requires Inv(s) && Enabled(s, a) && !a.Advance? && !a.WorkerStep? && !a.FailFlow?
    ensures Inv(Next(s, a))
  {
    match a {
      case Begin(c, key) => MoveKeeps(s, c, Lookup(key));
      case FailBuild(c) => MoveKeeps(s, c, Finished(BuildFailed));
      case TimeOut(c) => MoveKeeps(s, c, Finished(TimedOut));
      case RequestClose => FlagKeeps(s, true, s.closing || !s.closeFlag);
      case SendClose => SendCloseKeeps(s);
      case TakeCommand => TakeCommandKeeps(s);
      case Respond(id, code, token) => RespondKeeps(s, id, code, token);
      case BreakOff => WorkerMoves(s, Stopping);
    }
  }

  /** Every step of every thread keeps the invariant. */
  lemma StepKeeps(s: State, a: Action)
    requires Inv(s) && Enabled(s, a)
    ensures Inv(Next(s, a))
  {
    match a {
      case Advance(c) => CallStepKeeps(s, c);
      case WorkerStep => WorkerStepKeeps(s);
      case FailFlow(f) => FailOneKeeps(s, f);
      case _ => OtherStepKeeps(s, a);
    }
  }

  // ---- Whole runs ---------------------------------------------------------

  /** The state after a run from `s`, or None when some step is not enabled. */
  function Exec(s: State, run: seq<Action>): (end: Option<State>)
    requires Inv(s)
    ensures end.Some? ==> Inv(end.value)
    decreases |run|
  {
    if run == [] then Some(s)
    else if !Enabled(s, run[0]) then None
    else StepKeeps(s, run[0]); Exec(Next(s, run[0]), run[1..])
  }

  ghost predicate Reachable(s: State) {
    exists run :: Exec(INITIAL, run) == Some(s)
  }

  lemma {:induction false} ExecOneMore(s: State, run: seq<Action>, a: Action)
    requires Inv(s) && Exec(s, run).Some? && Enabled(Exec(s, run).value, a)
    ensures Exec(s, run + [a]) == Some(Next(Exec(s, run).value, a))
    decreases |run|
  {
    if run == [] {
      assert run + [a] == [a];
      StepKeeps(s, a);
    } else {
      assert (run + [a])[1..] == run[1..] + [a];
      StepKeeps(s, run[0]);
      ExecOneMore(Next(s, run[0]), run[1..], a);
    }
  }

  lemma ReachNext(s: State, a: Action)
    requires Reachable(s) && Enabled(s, a)
    ensures InRange(s) && Reachable(Next(s, a))
  {
    var run :| Exec(INITIAL, run) == Some(s);
    ExecOneMore(INITIAL, run, a);
  }

  lemma ReachStart()
    ensures Reachable(INITIAL)
  {
    assert Exec(INITIAL, []) == Some(INITIAL);
  }

  /**
   * On every interleaving: auth ids are unique, by_id maps each id to the
   * flow carrying it, each flow has at most one auth request on the channel,
   * an Ok result comes with a non-empty token the server returned for that
   * id, and no call ever ends with "missing connect token".
   */
  lemma AuthorisationSafe(s: State)
    requires Reachable(s)
    ensures forall i, j :: 0 <= i < j < |s.flows| ==> s.flows[i].authId != s.flows[j].authId
    ensures forall id :: id in s.byId ==> s.byId[id] < |s.flows| && s.flows[s.byId[id]].authId == id
    ensures forall i :: 0 <= i < |s.flows| ==> s.flows[i].requests <= 1
    ensures forall i :: 0 <= i < |s.flows| && s.flows[i].result == Some(true) ==>
              s.flows[i].token.Some? && s.flows[i].token.value != "" &&
              (s.flows[i].authId, s.flows[i].token.value) in s.replies
    ensures forall c :: c in s.calls ==> s.calls[c] != Finished(MissingToken)
  {
    assert Inv(s);
    forall i | 0 <= i < |s.flows| ensures s.flows[i].authId == i + 1 { assert FlowOk(s, i); }
    forall i | 0 <= i < |s.flows| ensures s.flows[i].requests <= 1 { assert FlowOk(s, i); }
    forall i | 0 <= i < |s.flows| && s.flows[i].result == Some(true)
      ensures s.flows[i].token.Some? && s.flows[i].token.value != ""
      ensures (s.flows[i].authId, s.flows[i].token.value) in s.replies
    { assert FlowOk(s, i); }
    forall c | c in s.calls ensures s.calls[c] != Finished(MissingToken) { assert CallOk(s, c); }
  }

  /**
   * Shutdown: once fail_pending has run, exactly the flows it collected from
   * by_id have a result. A flow that was in by_id when its auth request passed
   * the close-flag check is among them, so whoever waits on it can return.
   * Being in by_id when the request is accepted is not enough.
   */
  lemma ShutdownReleasesWaiters(s: State)
    requires Reachable(s) && s.worker.Gone?
    ensures s.snapshot.Some?
    ensures forall i :: 0 <= i < |s.flows| ==> (s.flows[i].result.Some? <==> i in s.snapshot.value)
    ensures forall i :: 0 <= i < |s.flows| && s.flows[i].openRegistered ==> s.flows[i].result.Some?
    ensures forall c :: c in s.calls && s.calls[c].Await? && s.calls[c].flow < |s.flows| ==>
              s.flows[s.calls[c].flow].openRegistered ==> Enabled(s, Advance(c))
  {
    assert Inv(s);
    forall i | 0 <= i < |s.flows|
      ensures s.flows[i].result.Some? <==> i in s.snapshot.value
      ensures s.flows[i].openRegistered ==> i in s.snapshot.value
    { assert FlowOk(s, i); }
  }

  lemma ClaimWrites(s: State, c: nat, j: nat)
    requires InRange(s) && c in s.calls && s.calls[c] == Claim(j)
    ensures var flows := CallStep(s, c).flows;
            flows == s.flows || flows == s.flows[j := s.flows[j].(started := Some(c))]
  {
  }

  lemma CheckWrites(s: State, c: nat, j: nat)
    requires InRange(s) && c in s.calls && s.calls[c] == CheckOpen(j)
    ensures var flows := CallStep(s, c).flows;
            flows == s.flows || flows == s.flows[j := s.flows[j].(openRegistered := s.flows[j].authId in s.byId)]
  {
  }

  lemma RequestWrites(s: State, c: nat, j: nat)
    requires InRange(s) && c in s.calls && s.calls[c] == SendRequest(j)
    ensures var flows := CallStep(s, c).flows;
            flows == s.flows || flows == s.flows[j := s.flows[j].(requests := s.flows[j].requests + 1)]
  {
  }

  /** A call's step changes no flow's result: it adds a flow, or writes another field of one. */
  lemma CallKeepsResult(s: State, c: nat, i: nat)
    requires InRange(s) && Enabled(s, Advance(c)) && i < |s.flows|
    ensures var flows := CallStep(s, c).flows; i < |flows| && flows[i].result == s.flows[i].result
  {
    var flows := CallStep(s, c).flows;
    match s.calls[c] {
      case Create(_) => assert flows[i] == s.flows[i];
      case Claim(j) => ClaimWrites(s, c, j);
      case CheckOpen(j) => CheckWrites(s, c, j);
      case SendRequest(j) => RequestWrites(s, c, j);
      case _ =>
    }
  }

  lemma AnswerWrites(s: State)
    requires InRange(s) && s.worker.Answering?
    ensures var flows, j := AdvanceWorker(s).flows, s.worker.flow;
            flows == s.flows || flows == s.flows[j := s.flows[j].(token := s.worker.token)]
  {
  }

  lemma ResultWrites(s: State)
    requires InRange(s) && s.worker.Settling?
    ensures var j := s.worker.flow; AdvanceWorker(s).flows == s.flows[j := s.flows[j].(result := Some(s.worker.ok))]
  {
  }

  lemma WorkerKeepsResult(s: State, i: nat)
    requires InRange(s) && Enabled(s, WorkerStep) && i < |s.flows| && s.flows[i].result.Some?
    ensures var flows := AdvanceWorker(s).flows; i < |flows| && flows[i].result.Some?
  {
    match s.worker {
      case Answering(_, _) => AnswerWrites(s);
      case Settling(_, _) => ResultWrites(s);
      case Stopping =>
      case Flagged =>
      case Failing(_) =>
    }
  }

  /** A settled result stays settled, and fail_pending leaves it as it was. */
  lemma SettledStays(s: State, a: Action, i: nat)
    requires InRange(s) && Enabled(s, a) && i < |s.flows| && s.flows[i].result.Some?
    ensures i < |Next(s, a).flows| && Next(s, a).flows[i].result.Some?
    ensures a.FailFlow? ==> Next(s, a).flows[i].result == s.flows[i].result
  {
    if a.Advance? {
      CallKeepsResult(s, a.call, i);
    } else if a.WorkerStep? {
      WorkerKeepsResult(s, i);
    }
  }
}
