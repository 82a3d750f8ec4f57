/**
 * Connection accounting of the local proxy: the listener, one thread for each
 * connection and a caller of `stop`. Steps are the code's atomic actions; a run
 * is any interleaving, without a panicking handler. An accept blocks until
 * someone connects. A thread serves until its client's side is over, because
 * the client is done or `stop` has shut its socket, and it cannot end while it
 * waits for its remote.
 */
module ProxyAccounting {
  import opened Options

  /** The handle list is pruned before it grows past this. */
  const PRUNE_AT := 256

  function In(handlers: map<nat, Handler>): (ids: set<nat>) {
    set id | id in handlers && handlers[id].In()
  }

  predicate Serves(s: State, id: nat) {
    id in s.handlers && s.handlers[id].Serving?
  }

  /** Nothing more comes from the client of this connection. */
  predicate ClientOver(s: State, id: nat) {
    id in s.swept || id in s.outside.over
  }

  predicate Enabled(s: State, a: Action) {
    match a
    case Listen => !s.listener.Exited? && (s.listener.Accepting? ==> s.backlog > 0)
    case AcceptFails(_) => s.listener.Accepting?
    case CloneFails => s.listener.Counted?
    case SpawnFails => s.listener.Started?
    case Handle(id) =>
      && id in s.handlers && !s.handlers[id].Finished?
      && (s.handlers[id].Serving? ==> ClientOver(s, id) && id !in s.outside.stalled)
    case ClientEnds(id) => Serves(s, id)
    case RemoteStalls(id) => Serves(s, id)
    case RemoteMoves(id) => id in s.outside.stalled
    case RemoteEnds(id) => Serves(s, id)
    case NodeStalls => true
    case NodeMoves => true
    case Arrive => true
    case WakeFails => s.stopper.SocketsShut?
    case Stop =>
      match s.stopper
      case Woken(_) => s.listener.Exited?
      case Joining(left) => left != [] ==> left[0] in s.handlers && s.handlers[left[0]].Finished?
      case ClosingTunnel => !s.outside.nodeStalled
      case Returned => false
      case _ => true
  }

  /** The step `stop` waits for: the listener's, or that of the thread it joins. */
  function AwaitedStep(s: State): (a: Action) {
    match s.stopper
    case Woken(_) => Listen
    case Joining(left) => if left == [] then Stop else Handle(left[0])
    case _ => Stop
  }

  /** `stop` has not returned, and neither it nor what it waits for can move by itself. */
  predicate Held(s: State) {
    !s.stopper.NotCalled? && !s.stopper.Returned? && !Enabled(s, Stop) && !Enabled(s, AwaitedStep(s))
  }

  datatype Listener =
    | LoopTest
    | Accepting
    | Accepted                 // a stream is there; the stop flag is read again
    | Cleared                  // the flag was not set
    | Counted(id: nat)         // `total_connections` has the id
    | Registered(id: nat)      // the socket is in the map if it could be cloned
    | Started(id: nat)         // `active_connections` counts it
    | Spawned(id: nat)         // the thread runs; its handle is not yet stored
    | Refused(id: nat)         // the thread could not be started
    | Unregistering(id: nat)   // its socket is out of the map again
    | Exited
  {
    /** The id no thread has taken over from the listener. */
    function Held(): Option<nat> {
      match this
      case Counted(id) => Some(id)
      case Registered(id) => Some(id)
      case Started(id) => Some(id)
      case Refused(id) => Some(id)
      case Unregistering(id) => Some(id)
      case _ => None
    }

    /** The id whose socket the listener may have registered and not taken back. */
    function Registering(): Option<nat> {
      match this
      case Registered(id) => Some(id)
      case Started(id) => Some(id)
      case Refused(id) => Some(id)
      case _ => None
    }

    /** The listener has counted the held connection in and no thread will count it out. */
    predicate In() {
      Started? || Refused? || Unregistering?
    }
  }

  /** A connection's thread: serving, out of the socket map, out of the count, gone. */
  datatype Handler = Serving | Unregistered | CountedOut | Finished
  {
    predicate In() {
      Serving? || Unregistered?
    }
  }

  datatype Stopper =
    | NotCalled
    | Flagged
    | SocketsShut              // every socket then in the map is shut
    | Woken(connected: bool)   // it has tried to connect to its own listener
    | ListenerJoined
    | Joining(left: seq<nat>)
    | ClosingTunnel            // the keepalive tunnel is closed last
    | Returned
  {
    predicate Swept() {
      !NotCalled? && !Flagged?
    }

    /** It has taken the handle list. */
    predicate Late() {
      Joining? || ClosingTunnel? || Returned?
    }
  }

  /** What clients, remotes and the node of the keepalive tunnel have done. */
  datatype Outside = Outside(
    over: set<nat>,            // connections whose client's side has ended
    stalled: set<nat>,         // connections whose thread waits for its remote
    nodeStalled: bool)         // the keepalive tunnel's worker is inside an unfinished frame

  datatype State = State(
    stop: bool,
    total: nat,
    active: int,               // an underflow would show as a negative number
    sockets: set<nat>,
    handles: seq<nat>,
    listener: Listener,
    handlers: map<nat, Handler>,
    stopper: Stopper,
    backlog: nat,              // connections waiting to be accepted
    swept: set<nat>,           // the sockets `stop` has shut
    late: set<nat>,            // connections registered after that
    unclonable: set<nat>,      // connections never registered
    outside: Outside)

  datatype Action =
    | Listen                   // the next step of the listener when nothing fails
    | AcceptFails(interrupted: bool)
    | CloneFails
    | SpawnFails
    | Handle(id: nat)          // the next step of a connection's thread
    | Stop                     // the next step of the `stop` call
    | WakeFails                // its connection to the listener does not come up
    | Arrive                   // a client connects
    | ClientEnds(id: nat)      // a client is done, or an idle timeout ends it
    | RemoteStalls(id: nat)    // a name, a connection, a write or the rest of a frame is waited for
    | RemoteMoves(id: nat)     // and comes
    | RemoteEnds(id: nat)      // a remote's end that ends both sides, as a tunnel's does
    | NodeStalls
    | NodeMoves

  const QUIET := Outside({}, {}, false)
  const INITIAL := State(false, 0, 0, {}, [], LoopTest, map[], NotCalled, 0, {}, {}, {}, QUIET)

  /** What the program does by itself, whatever clients and remotes do. */
  predicate Own(a: Action) {
    a.Listen? || a.CloneFails? || a.SpawnFails? || a.Handle? || a.Stop? || a.WakeFails?
  }

  function Unfinished(handles: seq<nat>, handlers: map<nat, Handler>): (rest: seq<nat>)
    ensures forall id :: id in rest <==> id in handles && !(id in handlers && handlers[id].Finished?)
    ensures |rest| <= |handles|
  {
    if handles == [] then []
    else
      assert handles == [handles[0]] + handles[1..];
      (if handles[0] in handlers && handlers[handles[0]].Finished? then [] else [handles[0]])
      + Unfinished(handles[1..], handlers)
  }

  function ListenStep(s: State): (s': State)
    requires Enabled(s, Listen)
  {
    match s.listener
    case LoopTest => s.(listener := if s.stop then Exited else Accepting)
    case Accepting => s.(backlog := s.backlog - 1, listener := Accepted)
    case Accepted => s.(listener := if s.stop then Exited else Cleared)
    case Cleared => s.(total := s.total + 1, listener := Counted(s.total + 1))
    case Counted(id) =>
      s.(sockets := s.sockets + {id}, listener := Registered(id),
         late := if s.stopper.Swept() then s.late + {id} else s.late)
    case Registered(id) => s.(active := s.active + 1, listener := Started(id))
    case Started(id) => s.(handlers := s.handlers[id := Serving], listener := Spawned(id))
    case Spawned(id) =>
      var kept := if |s.handles| >= PRUNE_AT then Unfinished(s.handles, s.handlers) else s.handles;
      s.(handles := kept + [id], listener := LoopTest)
    case Refused(id) => s.(sockets := s.sockets - {id}, listener := Unregistering(id))
    case Unregistering(id) => s.(active := s.active - 1, listener := LoopTest)
  }

  function HandleStep(s: State, id: nat): (s': State)
    requires id in s.handlers && !s.handlers[id].Finished?
  {
    match s.handlers[id]
    case Serving => s.(sockets := s.sockets - {id}, handlers := s.handlers[id := Unregistered])
    case Unregistered => s.(active := s.active - 1, handlers := s.handlers[id := CountedOut])
    case CountedOut => s.(handlers := s.handlers[id := Finished])
  }

  function StopStep(s: State): (s': State)
    requires Enabled(s, Stop)
  {
    match s.stopper
    case NotCalled => s.(stop := true, stopper := Flagged)
    case Flagged => s.(swept := s.sockets, stopper := SocketsShut)
    case SocketsShut => s.(backlog := s.backlog + 1, stopper := Woken(true))
    case Woken(_) => s.(stopper := ListenerJoined)
    case ListenerJoined => s.(handles := [], stopper := Joining(s.handles))
    case Joining(left) => s.(stopper := if left == [] then ClosingTunnel else Joining(left[1..]))
    case ClosingTunnel => s.(stopper := Returned)
  }

  function OutsideStep(o: Outside, a: Action): (o': Outside) {
    match a
    case ClientEnds(id) => o.(over := o.over + {id})
    case RemoteStalls(id) => o.(stalled := o.stalled + {id})
    case RemoteMoves(id) => o.(stalled := o.stalled - {id})
    case RemoteEnds(id) => o.(over := o.over + {id}, stalled := o.stalled - {id})
    case NodeStalls => o.(nodeStalled := true)
    case NodeMoves => o.(nodeStalled := false)
    case _ => o
  }

  function Next(s: State, a: Action): (s': State)
    requires Enabled(s, a)
  {
    match a
    case Listen => ListenStep(s)
    case AcceptFails(interrupted) => s.(listener := if !interrupted && s.stop then Exited else LoopTest)
    case CloneFails =>
      s.(listener := Registered(s.listener.id), unclonable := s.unclonable + {s.listener.id})
    case SpawnFails => s.(listener := Refused(s.listener.id))
    case Handle(id) => HandleStep(s, id)
    case Stop => StopStep(s)
    case WakeFails => s.(stopper := Woken(false))
    case Arrive => s.(backlog := s.backlog + 1)
    case _ => s.(outside := OutsideStep(s.outside, a))
  }

  // ---- The invariant ------------------------------------------------------

  /** The connections counted in and not yet counted out. */
  function CountedIn(s: State): (ids: set<nat>) {
    In(s.handlers) + if s.listener.In() then {s.listener.id} else {}
  }

  predicate CountFits(s: State) {
    s.active == |In(s.handlers)| + if s.listener.In() then 1 else 0
  }

  /** Ids are given out once, in order. */
  ghost predicate IdsFit(s: State) {
    && (forall id :: id in s.handlers ==> 1 <= id <= s.total)
    && (s.listener.Held().Some? ==> s.listener.Held() == Some(s.total) && s.total >= 1 && s.total !in s.handlers)
    && (s.listener.Spawned? ==> s.listener.id in s.handlers)
  }

  ghost predicate SocketsFit(s: State) {
    forall id :: id in s.sockets ==>
      s.listener.Registering() == Some(id) || (id in s.handlers && s.handlers[id].Serving?)
  }

  /** Someone will still join a thread that has not finished. */
  ghost predicate WillBeJoined(s: State, id: nat) {
    || id in s.handles
    || (s.listener.Spawned? && s.listener.id == id)
    || (s.stopper.Joining? && id in s.stopper.left)
  }

  ghost predicate HandlesFit(s: State) {
    && (forall id :: id in s.handlers && !s.handlers[id].Finished? ==> WillBeJoined(s, id))
    && (forall id :: id in s.handles ==> id in s.handlers)
    && (s.stopper.Joining? ==> forall id :: id in s.stopper.left ==> id in s.handlers)
  }

  ghost predicate StopFits(s: State) {
    && (s.stopper.ListenerJoined? || s.stopper.Late() ==> s.listener.Exited?)
    && (s.stopper.Late() ==> s.handles == [])
  }

  /** Once the flag is set the listener accepts nothing more, and a wake it has not taken is still waiting. */
  ghost predicate WakeFits(s: State) {
    && (s.stop <==> !s.stopper.NotCalled?)
    && (s.stopper == Woken(true) && s.listener.Accepting? ==> s.backlog > 0)
    && (s.late != {} ==> s.stop && (s.listener.Held().Some? ==> s.late == {s.listener.Held().value}))
    && (s.late != {} && s.listener.Held().None? ==>
          s.listener.Spawned? || s.listener.LoopTest? || s.listener.Exited?)
    && (s.listener.Counted? ==> s.late == {})
    && (forall i, j :: i in s.late && j in s.late ==> i == j)
  }

  /** A connection the sweep has missed: its socket came too late, or never was in the map. */
  ghost predicate Missed(s: State, id: nat) {
    id in s.late || id in s.unclonable
  }

  ghost predicate SweepFits(s: State) {
    && (s.stopper.Swept() ==> forall id :: id in s.sockets ==> id in s.swept || id in s.late)
    && (forall id :: id in s.handlers && s.handlers[id].Serving? ==> id in s.sockets || id in s.unclonable)
    && (s.listener.Registering().Some? ==> s.listener.Registering().value in s.sockets + s.unclonable)
    && (!s.stopper.Swept() ==> s.swept == {} == s.late)
  }

  ghost predicate Inv(s: State) {
    CountFits(s) && IdsFit(s) && SocketsFit(s) && HandlesFit(s) && StopFits(s) && WakeFits(s) && SweepFits(s)
  }

  /** One thread's step changes the count by that thread alone. */
  lemma InWith(handlers: map<nat, Handler>, id: nat, h: Handler)
    ensures var now := In(handlers[id := h]);
            |now| == |In(handlers)| + (if h.In() then 1 else 0) - if id in handlers && handlers[id].In() then 1 else 0
  {
    var ids, now := In(handlers), In(handlers[id := h]);
    assert now == if h.In() then ids + {id} else ids - {id};
    assert id in ids <==> id in handlers && handlers[id].In();
  }

  lemma ListenCounts(s: State)
    requires CountFits(s) && IdsFit(s) && Enabled(s, Listen)
    ensures CountFits(ListenStep(s))
  {
    if s.listener.Started? { InWith(s.handlers, s.listener.id, Serving); }
  }

  lemma HandleCounts(s: State, id: nat)
    requires CountFits(s) && id in s.handlers && !s.handlers[id].Finished?
    ensures CountFits(HandleStep(s, id))
  {
    InWith(s.handlers, id, HandleStep(s, id).handlers[id]);
  }

  lemma ListenIds(s: State)
    requires IdsFit(s) && Enabled(s, Listen)
    ensures IdsFit(ListenStep(s))
  {
  }

  lemma ListenSockets(s: State)
    requires IdsFit(s) && SocketsFit(s) && Enabled(s, Listen)
    ensures SocketsFit(ListenStep(s))
  {
  }

  lemma ListenHandles(s: State)
    requires HandlesFit(s) && StopFits(s) && IdsFit(s) && Enabled(s, Listen)
    ensures HandlesFit(ListenStep(s)) && StopFits(ListenStep(s))
  {
    var s' := ListenStep(s);
    forall id | id in s'.handlers && !s'.handlers[id].Finished? ensures WillBeJoined(s', id) {
      if id in s.handlers { assert WillBeJoined(s, id); }
    }
  }

  lemma ListenWakes(s: State)
    requires WakeFits(s) && IdsFit(s) && StopFits(s) && Enabled(s, Listen) && (!s.stopper.Swept() ==> s.late == {})
    ensures WakeFits(ListenStep(s))
  {
  }

  lemma ListenSweeps(s: State)
    requires SweepFits(s) && IdsFit(s) && Enabled(s, Listen)
    ensures SweepFits(ListenStep(s))
  {
  }

  lemma ListenKeeps(s: State)
    requires Inv(s) && Enabled(s, Listen)
    ensures Inv(ListenStep(s))
  {
    ListenCounts(s);
    ListenIds(s);
    ListenSockets(s);
    ListenHandles(s);
    ListenWakes(s);
    ListenSweeps(s);
  }

  lemma HandleSockets(s: State, id: nat)
    requires IdsFit(s) && SocketsFit(s) && id in s.handlers && !s.handlers[id].Finished?
    ensures IdsFit(HandleStep(s, id)) && SocketsFit(HandleStep(s, id))
  {
  }

  lemma HandleHandles(s: State, id: nat)
    requires HandlesFit(s) && StopFits(s) && id in s.handlers && !s.handlers[id].Finished?
    ensures HandlesFit(HandleStep(s, id)) && StopFits(HandleStep(s, id))
  {
    var s' := HandleStep(s, id);
    forall i | i in s'.handlers && !s'.handlers[i].Finished? ensures WillBeJoined(s', i) {
      assert WillBeJoined(s, i);
    }
  }

  lemma HandleSweeps(s: State, id: nat)
    requires SweepFits(s) && WakeFits(s) && id in s.handlers && !s.handlers[id].Finished?
    requires s.listener.Held().Some? ==> s.listener.Held().value !in s.handlers
    ensures SweepFits(HandleStep(s, id)) && WakeFits(HandleStep(s, id))
  {
  }

  lemma HandleKeeps(s: State, id: nat)
    requires Inv(s) && id in s.handlers && !s.handlers[id].Finished?
    ensures Inv(HandleStep(s, id))
  {
    HandleCounts(s, id);
    HandleSockets(s, id);
    HandleHandles(s, id);
    HandleSweeps(s, id);
  }

  lemma StopKeeps(s: State)
    requires Inv(s) && Enabled(s, Stop)
    ensures Inv(StopStep(s))
  {
    var s' := StopStep(s);
    if s.stopper.Joining? && s.stopper.left != [] {
      assert s.stopper.left == [s.stopper.left[0]] + s.stopper.left[1..];
    }
    forall i | i in s'.handlers && !s'.handlers[i].Finished? ensures WillBeJoined(s', i) {
      assert WillBeJoined(s, i);
    }
  }

  lemma FailureKeeps(s: State, a: Action)
    requires Inv(s) && Enabled(s, a) && !a.Listen? && !a.Handle? && !a.Stop?
    ensures Inv(Next(s, a))
  {
    var s' := Next(s, a);
    forall i | i in s'.handlers && !s'.handlers[i].Finished? ensures WillBeJoined(s', i) {
      assert WillBeJoined(s, i);
    }
  }

  /** Every step of every thread keeps the invariant. */
  lemma StepKeeps(s: State, a: Action)
    requires Inv(s) && Enabled(s, a)
    ensures Inv(Next(s, a))
  {
    match a {
      case Listen => ListenKeeps(s);
      case Handle(id) => HandleKeeps(s, id);
      case Stop => StopKeeps(s);
      case _ => FailureKeeps(s, a);
    }
  }

  // ---- Whole runs ---------------------------------------------------------

  ghost function Exec(s: State, run: seq<Action>): (end: Option<State>)
    requires Inv(s)
    ensures end.Some? ==> Inv(end.value)
    decreases |run|
  {
    if run == [] then Some(s)
    else if !Enabled(s, run[0]) then None
    else StepKeeps(s, run[0]); Exec(Next(s, run[0]), run[1..])
  }

  ghost predicate Reachable(s: State) {
    exists run :: Exec(INITIAL, run) == Some(s)
  }

  lemma {:induction false} UpTo(ids: set<nat>, n: nat)
    requires forall id :: id in ids ==> 1 <= id <= n
    ensures |ids| <= n
  {
    if n == 0 {
      assert ids == {};
    } else {
      UpTo(ids - {n}, n - 1);
      if n in ids { assert ids == (ids - {n}) + {n}; } else { assert ids - {n} == ids; }
    }
  }

  lemma CountIs(s: State)
    requires CountFits(s) && IdsFit(s)
    ensures s.active == |CountedIn(s)|
    ensures forall id :: id in CountedIn(s) ==> 1 <= id <= s.total
  {
    if s.listener.In() {
      assert s.listener.id !in In(s.handlers);
    } else {
      assert CountedIn(s) == In(s.handlers);
    }
  }

  /**
   * On every interleaving the counter is the number of connections counted in
   * and not out: it never underflows and never exceeds the total. A registered
   * socket belongs to a connection that has not finished.
   */
  lemma Accounted(s: State)
    requires Reachable(s)
    ensures 0 <= s.active == |CountedIn(s)| <= s.total
    ensures forall id :: id in s.sockets && s.listener.Held() != Some(id) ==>
              id in s.handlers && s.handlers[id].Serving?
  {
    CountIs(s);
    UpTo(CountedIn(s), s.total);
  }

  /** A step that counts a connection out finds it counted in. */
  lemma NoUnderflow(s: State, a: Action)
    requires Reachable(s) && Enabled(s, a)
    ensures Next(s, a).active >= 0
  {
    StepKeeps(s, a);
  }

  /** When `stop` has returned, every thread is gone, the counter is 0 and no socket is registered. */
  lemma StoppedClean(s: State)
    requires Reachable(s) && s.stopper.Returned?
    ensures s.active == 0 && s.sockets == {} && s.listener.Exited?
    ensures forall id :: id in s.handlers ==> s.handlers[id].Finished?
  {
    assert forall id :: id in s.handlers && !s.handlers[id].Finished? ==> WillBeJoined(s, id);
    assert In(s.handlers) == {};
  }

  // ---- What can hold `stop` -----------------------------------------------

  /** The listener was not woken and nobody connects. */
  predicate HeldByListener(s: State) {
    s.stopper == Woken(false) && s.listener.Accepting? && s.backlog == 0
  }

  /** The thread being joined still serves. */
  predicate JoinsServing(s: State, id: nat) {
    s.stopper.Joining? && s.stopper.left != [] && s.stopper.left[0] == id && Serves(s, id)
  }

  /** Its client is there and its socket was not shut. */
  predicate HeldByClient(s: State, id: nat) {
    JoinsServing(s, id) && !ClientOver(s, id)
  }

  /** It waits for its remote. */
  predicate HeldByRemote(s: State, id: nat) {
    JoinsServing(s, id) && id in s.outside.stalled
  }

  /** Every connection is gone, and the keepalive tunnel's worker waits for its node. */
  predicate HeldByNode(s: State) {
    s.stopper.ClosingTunnel? && s.outside.nodeStalled
  }

  /**
   * `stop` is held exactly by a listener its connection did not wake, by the
   * client of a connection the sweep missed, by a remote its thread waits for,
   * or by the node of the keepalive tunnel. The sweep misses a connection whose
   * socket could not be cloned, and at most one that was registered after it.
   */
  lemma HeldExactly(s: State)
    requires Reachable(s)
    ensures Held(s) <==>
              HeldByListener(s) || HeldByNode(s) || exists id :: HeldByClient(s, id) || HeldByRemote(s, id)
    ensures forall id :: HeldByClient(s, id) ==> Missed(s, id)
    ensures forall i, j :: i in s.late && j in s.late ==> i == j
  {
    if s.stopper.Joining? && s.stopper.left != [] {
      var id := s.stopper.left[0];
      assert id in s.stopper.left;
      assert Held(s) <==> HeldByClient(s, id) || HeldByRemote(s, id);
    }
  }

  /**
   * A socket in the map when `stop` sweeps it is shut: afterwards only a late
   * one can be in it unshut, and a thread the sweep has not missed ends as soon
   * as it does not wait for its remote.
   */
  lemma SweepShuts(s: State)
    requires Reachable(s) && s.stopper.Swept()
    ensures forall id :: id in s.sockets && id !in s.late ==> id in s.swept
    ensures forall id :: Serves(s, id) && !Missed(s, id) ==> (Enabled(s, Handle(id)) <==> id !in s.outside.stalled)
  {
  }

  lemma ConnectionHolds(s: State, a: Action, id: nat)
    requires StopFits(s) && JoinsServing(s, id) && Enabled(s, a) && a != Handle(id)
    ensures JoinsServing(Next(s, a), id)
  {
  }

  /** Who holds `stop` is the one to free it, however long everything else runs. */
  lemma HeldStays(s: State, a: Action)
    requires Reachable(s) && Enabled(s, a)
    ensures forall id :: HeldByClient(s, id) && a != ClientEnds(id) && a != RemoteEnds(id) ==>
              HeldByClient(Next(s, a), id)
    ensures forall id :: HeldByRemote(s, id) && a != RemoteMoves(id) && a != RemoteEnds(id) ==>
              HeldByRemote(Next(s, a), id)
    ensures HeldByNode(s) && !a.NodeMoves? ==> HeldByNode(Next(s, a))
    ensures HeldByListener(s) && !a.Arrive? && !a.AcceptFails? ==> HeldByListener(Next(s, a))
  {
    forall id | JoinsServing(s, id) && a != Handle(id) ensures JoinsServing(Next(s, a), id) {
      ConnectionHolds(s, a, id);
    }
  }

  // Left alone, `stop` comes to an end.

  function ListenerWork(l: Listener): (n: nat) {
    match l
    case Exited => 0
    case LoopTest => 1
    case Accepted => 1
    case Accepting => 2
    case Spawned(_) => 3
    case Unregistering(_) => 2
    case Refused(_) => 3
    case Started(_) => 7
    case Registered(_) => 8
    case Counted(_) => 9
    case Cleared => 10
  }

  function HandlerWork(handlers: map<nat, Handler>, id: nat): (n: nat) {
    if id !in handlers then 0
    else
      match handlers[id]
      case Serving => 3
      case Unregistered => 2
      case CountedOut => 1
      case Finished => 0
  }

  /** The steps the threads with ids up to `n` have before them. */
  function ThreadsWork(handlers: map<nat, Handler>, n: nat): (w: nat) {
    if n == 0 then 0 else ThreadsWork(handlers, n - 1) + HandlerWork(handlers, n)
  }

  lemma {:induction false} ThreadsWorkWith(handlers: map<nat, Handler>, id: nat, h: Handler, n: nat)
    ensures var now := handlers[id := h];
            ThreadsWork(now, n) ==
            if 1 <= id <= n then ThreadsWork(handlers, n) - HandlerWork(handlers, id) + HandlerWork(now, id)
            else ThreadsWork(handlers, n)
  {
    if n > 0 { ThreadsWorkWith(handlers, id, h, n - 1); }
  }

  function StopperWork(s: State): (n: nat) {
    match s.stopper
    case NotCalled => 7 + |s.handles|
    case Flagged => 6 + |s.handles|
    case SocketsShut => 5 + |s.handles|
    case Woken(_) => 4 + |s.handles|
    case ListenerJoined => 3 + |s.handles|
    case Joining(left) => 2 + |left|
    case ClosingTunnel => 1
    case Returned => 0
  }

  function Work(s: State): (n: nat) {
    ListenerWork(s.listener) + ThreadsWork(s.handlers, s.total) + StopperWork(s)
  }

  lemma SpawnWorks(s: State)
    requires IdsFit(s) && s.listener.Started?
    ensures ThreadsWork(s.handlers[s.listener.id := Serving], s.total) == ThreadsWork(s.handlers, s.total) + 3
  {
    ThreadsWorkWith(s.handlers, s.listener.id, Serving, s.total);
  }

  lemma StoreWorks(s: State)
    requires s.listener.Spawned?
    ensures StopperWork(ListenStep(s)) <= StopperWork(s) + 1
  {
  }

  lemma ListenWorks(s: State)
    requires IdsFit(s) && s.stop && Enabled(s, Listen)
    ensures Work(ListenStep(s)) < Work(s)
  {
    if s.listener.Started? {
      SpawnWorks(s);
    } else if s.listener.Cleared? {
      assert ThreadsWork(s.handlers, s.total + 1) == ThreadsWork(s.handlers, s.total);
    } else if s.listener.Spawned? {
      StoreWorks(s);
    }
  }

  lemma HandleWorks(s: State, id: nat)
    requires IdsFit(s) && id in s.handlers && !s.handlers[id].Finished?
    ensures Work(HandleStep(s, id)) < Work(s)
  {
    ThreadsWorkWith(s.handlers, id, HandleStep(s, id).handlers[id], s.total);
  }

  /** Once the flag is set every step of the program's own brings the end nearer. */
  lemma OwnStepWorks(s: State, a: Action)
    requires Inv(s) && s.stop && Own(a) && Enabled(s, a)
    ensures Next(s, a).stop && Work(Next(s, a)) < Work(s)
  {
    match a {
      case Listen => ListenWorks(s);
      case Handle(id) => HandleWorks(s, id);
      case _ =>
    }
  }

  /** So without clients and remotes acting a stopping proxy takes a bounded number of steps. */
  lemma {:induction false} OwnRunsEnd(s: State, run: seq<Action>)
    requires Inv(s) && s.stop && Exec(s, run).Some? && forall i :: 0 <= i < |run| ==> Own(run[i])
    ensures |run| <= Work(s)
    decreases |run|
  {
    if run != [] {
      OwnStepWorks(s, run[0]);
      StepKeeps(s, run[0]);
      OwnRunsEnd(Next(s, run[0]), run[1..]);
    }
  }

  /** And where they end, `stop` has returned or is held. */
  lemma RestsReturnedOrHeld(s: State)
    requires Reachable(s) && s.stop && forall a :: Own(a) ==> !Enabled(s, a)
    ensures s.stopper.Returned? || Held(s)
  {
    assert Own(Stop) && Own(AwaitedStep(s));
  }

  // ---- A run that holds it ------------------------------------------------

  lemma {:induction false} ExecOneMore(s: State, run: seq<Action>, a: Action)
    requires Inv(s) && Exec(s, run).Some? && Enabled(Exec(s, run).value, a)
    ensures Exec(s, run + [a]) == Some(Next(Exec(s, run).value, a))
    decreases |run|
  {
    if run == [] {
      StepKeeps(s, a);
      assert Exec(Next(s, a), []) == Some(Next(s, a));
      assert ([] + [a])[1..] == [];
    } else {
      StepKeeps(s, run[0]);
      ExecOneMore(Next(s, run[0]), run[1..], a);
      assert (run + [a])[1..] == run[1..] + [a];
    }
  }

  lemma Take(s: State, a: Action, s': State)
    requires Reachable(s) && Enabled(s, a) && Next(s, a) == s'
    ensures Reachable(s')
  {
    var run :| Exec(INITIAL, run) == Some(s);
    ExecOneMore(INITIAL, run, a);
  }

  lemma ReachStart()
    ensures Reachable(INITIAL.(backlog := 1))
  {
    assert Exec(INITIAL, []) == Some(INITIAL);
    Take(INITIAL, Arrive, INITIAL.(backlog := 1));
  }

  lemma AcceptedReachable()
    ensures Reachable(INITIAL.(listener := Cleared))
  {
    ReachStart();
    var waiting := INITIAL.(backlog := 1);
    var accepting := waiting.(listener := Accepting);
    Take(waiting, Listen, accepting);
    var accepted := INITIAL.(listener := Accepted);
    Take(accepting, Listen, accepted);
    Take(accepted, Listen, INITIAL.(listener := Cleared));
  }

  lemma Sweeps(w: State)
    requires Reachable(w) && w.stopper.NotCalled?
    ensures Reachable(w.(stop := true, swept := w.sockets, stopper := SocketsShut))
  {
    var flagged := w.(stop := true, stopper := Flagged);
    Take(w, Stop, flagged);
    Take(flagged, Stop, flagged.(swept := w.sockets, stopper := SocketsShut));
  }

  /** The flag is set and the sockets are shut while the listener has a connection in its hands. */
  lemma SweptEarlyReachable()
    ensures Reachable(INITIAL.(listener := Cleared, stop := true, stopper := SocketsShut))
  {
    AcceptedReachable();
    var cleared := INITIAL.(listener := Cleared);
    Sweeps(cleared);
  }

  /** The first connection served, registered after the sweep. */
  const LATE := State(true, 1, 1, {1}, [], LoopTest, map[1 := Serving], SocketsShut, 0, {}, {1}, {}, QUIET)

  lemma LateRegisters()
    ensures Reachable(LATE.(active := 0, handlers := map[], listener := Registered(1)))
  {
    SweptEarlyReachable();
    var swept := INITIAL.(listener := Cleared, stop := true, stopper := SocketsShut);
    var counted := swept.(total := 1, listener := Counted(1));
    Take(swept, Listen, counted);
    Take(counted, Listen, counted.(sockets := {1}, late := {1}, listener := Registered(1)));
  }

  lemma LateStarts()
    ensures Reachable(LATE.(handlers := map[], listener := Started(1)))
  {
    LateRegisters();
    var registered := LATE.(active := 0, handlers := map[], listener := Registered(1));
    Take(registered, Listen, LATE.(handlers := map[], listener := Started(1)));
  }

  lemma LateServes()
    ensures Reachable(LATE.(handles := [1]))
  {
    LateStarts();
    var started := LATE.(handlers := map[], listener := Started(1));
    var spawned := LATE.(listener := Spawned(1));
    Take(started, Listen, spawned);
    Take(spawned, Listen, LATE.(handles := [1]));
  }

  /** From the sweep on, with the listener between two connections, to the first join. */
  lemma ComesToJoin(w: State)
    requires Reachable(w) && w.stop && w.stopper.SocketsShut? && w.listener.LoopTest?
    ensures Reachable(w.(listener := Exited, backlog := w.backlog + 1, handles := [], stopper := Joining(w.handles)))
  {
    var exited := w.(listener := Exited);
    Take(w, Listen, exited);
    var woken := exited.(backlog := w.backlog + 1, stopper := Woken(true));
    Take(exited, Stop, woken);
    var joined := woken.(stopper := ListenerJoined);
    Take(woken, Stop, joined);
    Take(joined, Stop, joined.(handles := [], stopper := Joining(w.handles)));
  }

  /** `stop` called between two connections, up to the first join. */
  function JoiningFrom(w: State): (s: State) {
    w.(stop := true, swept := w.sockets, listener := Exited, backlog := w.backlog + 1, handles := [],
       stopper := Joining(w.handles))
  }

  lemma StopsAndJoins(w: State)
    requires Reachable(w) && w.stopper.NotCalled? && w.listener.LoopTest?
    ensures Reachable(JoiningFrom(w))
  {
    Sweeps(w);
    ComesToJoin(w.(stop := true, swept := w.sockets, stopper := SocketsShut));
  }

  /**
   * The sweep can come too early: a connection past the second look at the flag
   * is registered behind it, nobody shuts its socket, and `stop` joins its
   * thread for as long as the client stays.
   */
  lemma LateConnectionHoldsStop() returns (s: State)
    ensures Reachable(s) && HeldByClient(s, 1) && Held(s)
    ensures 1 in s.sockets && 1 !in s.unclonable && s.listener.Exited?
  {
    LateServes();
    ComesToJoin(LATE.(handles := [1]));
    s := LATE.(listener := Exited, backlog := 1, handles := [], stopper := Joining([1]));
  }

  /** The first connection served, its socket not cloned. */
  const UNCLONED := State(false, 1, 1, {}, [], LoopTest, map[1 := Serving], NotCalled, 0, {}, {}, {1}, QUIET)

  lemma UnclonedStarts()
    ensures Reachable(UNCLONED.(handlers := map[], listener := Started(1)))
  {
    AcceptedReachable();
    var cleared := INITIAL.(listener := Cleared);
    var counted := cleared.(total := 1, listener := Counted(1));
    Take(cleared, Listen, counted);
    var registered := counted.(unclonable := {1}, listener := Registered(1));
    Take(counted, CloneFails, registered);
    Take(registered, Listen, UNCLONED.(handlers := map[], listener := Started(1)));
  }

  lemma UnclonedServes()
    ensures Reachable(UNCLONED.(handles := [1]))
  {
    UnclonedStarts();
    var started := UNCLONED.(handlers := map[], listener := Started(1));
    var spawned := UNCLONED.(listener := Spawned(1));
    Take(started, Listen, spawned);
    Take(spawned, Listen, UNCLONED.(handles := [1]));
  }

  /** So does a connection whose socket could not be cloned, however early it came. */
  lemma UnclonedConnectionHoldsStop() returns (s: State)
    ensures Reachable(s) && HeldByClient(s, 1) && Held(s)
    ensures s.late == {} && s.listener.Exited?
  {
    UnclonedServes();
    StopsAndJoins(UNCLONED.(handles := [1]));
    s := JoiningFrom(UNCLONED.(handles := [1]));
  }

  lemma AcceptingReachable()
    ensures Reachable(INITIAL.(listener := Accepting))
  {
    assert Exec(INITIAL, []) == Some(INITIAL);
    Take(INITIAL, Listen, INITIAL.(listener := Accepting));
  }

  /** And a listener that `stop` could not connect to waits for somebody else to do so. */
  lemma UnwokenListenerHoldsStop() returns (s: State)
    ensures Reachable(s) && HeldByListener(s) && Held(s)
  {
    AcceptingReachable();
    var accepting := INITIAL.(listener := Accepting);
    Sweeps(accepting);
    var swept := accepting.(stop := true, swept := {}, stopper := SocketsShut);
    s := swept.(stopper := Woken(false));
    Take(swept, WakeFails, s);
  }

  /** The first connection served, registered in time. */
  const SERVED := State(false, 1, 1, {1}, [], LoopTest, map[1 := Serving], NotCalled, 0, {}, {}, {}, QUIET)

  lemma ServedStarts()
    ensures Reachable(SERVED.(handlers := map[], listener := Started(1)))
  {
    AcceptedReachable();
    var cleared := INITIAL.(listener := Cleared);
    var counted := cleared.(total := 1, listener := Counted(1));
    Take(cleared, Listen, counted);
    var registered := counted.(sockets := {1}, listener := Registered(1));
    Take(counted, Listen, registered);
    Take(registered, Listen, SERVED.(handlers := map[], listener := Started(1)));
  }

  lemma ServedReachable()
    ensures Reachable(SERVED.(handles := [1]))
  {
    ServedStarts();
    var started := SERVED.(handlers := map[], listener := Started(1));
    var spawned := SERVED.(listener := Spawned(1));
    Take(started, Listen, spawned);
    Take(spawned, Listen, SERVED.(handles := [1]));
  }

  lemma StalledReachable()
    ensures Reachable(SERVED.(handles := [1], outside := Outside({}, {1}, false)))
  {
    ServedReachable();
    Take(SERVED.(handles := [1]), RemoteStalls(1), SERVED.(handles := [1], outside := Outside({}, {1}, false)));
  }

  /**
   * A socket that was shut in time is not enough: a thread writing to a remote
   * that does not read holds `stop` until the remote moves.
   */
  lemma StalledRemoteHoldsStop() returns (s: State)
    ensures Reachable(s) && HeldByRemote(s, 1) && Held(s)
    ensures 1 in s.swept && !Missed(s, 1)
  {
    StalledReachable();
    var stalled := SERVED.(handles := [1], outside := Outside({}, {1}, false));
    StopsAndJoins(stalled);
    s := JoiningFrom(stalled);
  }

  lemma NodeStalledReachable()
    ensures Reachable(INITIAL.(outside := Outside({}, {}, true)))
  {
    assert Exec(INITIAL, []) == Some(INITIAL);
    Take(INITIAL, NodeStalls, INITIAL.(outside := Outside({}, {}, true)));
  }

  /** With no connection at all, the keepalive tunnel can. */
  lemma StalledNodeHoldsStop() returns (s: State)
    ensures Reachable(s) && HeldByNode(s) && Held(s) && s.total == 0
  {
    NodeStalledReachable();
    var stalled := INITIAL.(outside := Outside({}, {}, true));
    StopsAndJoins(stalled);
    s := JoiningFrom(stalled).(stopper := ClosingTunnel);
    Take(JoiningFrom(stalled), Stop, s);
  }
}
