/** The diagnostic log file and its rotation to one backup. */
module LogRotation {
  import opened Bytes
  import opened Options

  /** What the file system answers during one append; `written` bounds the bytes a write gets out. */
  datatype Disk = Disk(opens: bool, renames: bool, reopens: bool, written: nat)

  datatype Action = Append(line: seq<byte>, disk: Disk) | Close

  /** `slot` is the size the open sink believes its file has. */
  datatype Files = Files(slot: Option<nat>, file: seq<byte>, backup: seq<byte>)

  // ---- One append, as the code decides it ---------------------------------

  function Opened(f: Files, ok: bool): (g: Files) {
    if f.slot.None? && ok then f.(slot := Some(|f.file|)) else f
  }

  /** The sink sees that the line would take the file past the limit. */
  predicate Rotates(max: nat, f: Files, line: seq<byte>) {
    f.slot.Some? && f.slot.value > 0 && f.slot.value + |line| > max
  }

  /** The file is moved over the backup and a new one opened, as far as the file system lets it. */
  function Rotated(f: Files, disk: Disk): (g: Files) {
    var moved := if disk.renames then Files(None, [], f.file) else f.(slot := None);
    Opened(moved, disk.reopens)
  }

  /** The part of a line a write gets out. */
  function Part(line: seq<byte>, disk: Disk): (part: seq<byte>) {
    if disk.written < |line| then line[..disk.written] else line
  }

  function Written(f: Files, line: seq<byte>, disk: Disk): (g: Files) {
    if f.slot.None? then f
    else
      var size := if disk.written < |line| then f.slot else Some(f.slot.value + |line|);
      Files(size, f.file + Part(line, disk), f.backup)
  }

  /** The files a write finds. */
  function Ready(max: nat, f: Files, line: seq<byte>, disk: Disk): (g: Files) {
    var open := Opened(f, disk.opens);
    if Rotates(max, open, line) then Rotated(open, disk) else open
  }

  function Appended(max: nat, f: Files, line: seq<byte>, disk: Disk): (g: Files) {
    Written(Ready(max, f, line, disk), line, disk)
  }

  /** What an append adds to the file. */
  function Output(max: nat, f: Files, line: seq<byte>, disk: Disk): (bytes: seq<byte>) {
    if Ready(max, f, line, disk).slot.None? then [] else Part(line, disk)
  }

  // ---- What holds whatever the file system does ---------------------------

  predicate IsSuffix(tail: seq<byte>, all: seq<byte>) {
    |tail| <= |all| && all[|all| - |tail|..] == tail
  }

  /** Backup and file are the end of everything written. */
  predicate Ordered(f: Files, history: seq<byte>) {
    IsSuffix(f.backup + f.file, history)
  }

  /** The file is at least as long as the sink believes. */
  predicate Tracked(f: Files) {
    f.slot.Some? ==> f.slot.value <= |f.file|
  }

  lemma SuffixGrows(tail: seq<byte>, all: seq<byte>, more: seq<byte>)
    requires IsSuffix(tail, all)
    ensures IsSuffix(tail + more, all + more)
  {
  }

  lemma SuffixOfSuffix(front: seq<byte>, tail: seq<byte>, all: seq<byte>)
    requires IsSuffix(front + tail, all)
    ensures IsSuffix(tail, all)
  {
    assert (front + tail)[|front|..] == tail;
    assert all[|all| - |tail|..] == all[|all| - |front + tail|..][|front|..];
  }

  lemma ReadyOrdered(max: nat, f: Files, line: seq<byte>, disk: Disk, history: seq<byte>)
    requires Ordered(f, history) && Tracked(f)
    ensures Ordered(Ready(max, f, line, disk), history) && Tracked(Ready(max, f, line, disk))
  {
    SuffixOfSuffix(f.backup, f.file, history);
    assert f.file + [] == f.file;
  }

  /** An append loses and reorders nothing but what a rotation drops with the old backup. */
  lemma AppendedOrdered(max: nat, f: Files, line: seq<byte>, disk: Disk, history: seq<byte>)
    requires Ordered(f, history) && Tracked(f)
    ensures Ordered(Appended(max, f, line, disk), history + Output(max, f, line, disk))
    ensures Tracked(Appended(max, f, line, disk))
  {
    var ready := Ready(max, f, line, disk);
    ReadyOrdered(max, f, line, disk, history);
    if ready.slot.Some? {
      SuffixGrows(ready.backup + ready.file, history, Part(line, disk));
      Assoc(ready.backup, ready.file, Part(line, disk));
    } else {
      assert history + [] == history;
    }
  }

  // ---- The limit ----------------------------------------------------------

  /** The file is within the limit or holds just what the append wrote. */
  predicate Within(max: nat, f: Files, output: seq<byte>) {
    |f.file| <= max || f.file == output
  }

  /** Writing `n` bytes behind what is there would pass the limit. */
  predicate Due(max: nat, f: Files, n: nat) {
    |f.file| > 0 && |f.file| + n > max
  }

  /**
   * The limit holds after an append that had an open sink if and only if no
   * rotation was due, or the sink saw that it was and the rename succeeded.
   */
  lemma BoundExactly(max: nat, f: Files, line: seq<byte>, disk: Disk)
    requires Tracked(f) && Ready(max, f, line, disk).slot.Some?
    ensures var open := Opened(f, disk.opens);
            Within(max, Appended(max, f, line, disk), Output(max, f, line, disk)) <==>
            !Due(max, open, |Part(line, disk)|) || (Rotates(max, open, line) && disk.renames)
  {
    var open, part := Opened(f, disk.opens), Part(line, disk);
    if Rotates(max, open, line) && disk.renames {
      assert [] + part == part;
    } else {
      assert |open.file + part| == |open.file| + |part|;
      if open.file == [] { assert open.file + part == part; }
    }
  }

  predicate Exact(f: Files) {
    f.slot.Some? ==> f.slot.value == |f.file|
  }

  predicate Whole(line: seq<byte>, disk: Disk) {
    disk.written == 0 || disk.written >= |line|
  }

  /** Only a write that gets part of its line out makes the size wrong. */
  lemma WholeWritesKeepExact(max: nat, f: Files, line: seq<byte>, disk: Disk)
    requires Exact(f) && Whole(line, disk)
    ensures Exact(Appended(max, f, line, disk))
  {
  }

  // ---- Whole runs ---------------------------------------------------------

  function Step(max: nat, f: Files, a: Action): (g: Files) {
    match a
    case Append(line, disk) => Appended(max, f, line, disk)
    case Close => f.(slot := None)
  }

  function Exec(max: nat, f: Files, run: seq<Action>): (g: Files)
    decreases |run|
  {
    if run == [] then f else Exec(max, Step(max, f, run[0]), run[1..])
  }

  /** Everything a run writes. */
  function Outputs(max: nat, f: Files, run: seq<Action>): (bytes: seq<byte>)
    decreases |run|
  {
    if run == [] then []
    else
      (if run[0].Append? then Output(max, f, run[0].line, run[0].disk) else [])
      + Outputs(max, Step(max, f, run[0]), run[1..])
  }

  predicate StepWithin(max: nat, f: Files, a: Action) {
    a.Append? && Ready(max, f, a.line, a.disk).slot.Some? ==>
      Within(max, Step(max, f, a), Output(max, f, a.line, a.disk))
  }

  /** The limit holds after each append that had an open sink. */
  predicate WithinThroughout(max: nat, f: Files, run: seq<Action>)
    decreases |run|
  {
    run == [] || (StepWithin(max, f, run[0]) && WithinThroughout(max, Step(max, f, run[0]), run[1..]))
  }

  predicate RenameHolds(max: nat, f: Files, a: Action) {
    a.Append? && Rotates(max, Opened(f, a.disk.opens), a.line) ==> a.disk.renames
  }

  /** No rename of a due rotation fails. */
  predicate RenamesHold(max: nat, f: Files, run: seq<Action>)
    decreases |run|
  {
    run == [] || (RenameHolds(max, f, run[0]) && RenamesHold(max, Step(max, f, run[0]), run[1..]))
  }

  predicate WholeWrites(run: seq<Action>) {
    forall i :: 0 <= i < |run| && run[i].Append? ==> Whole(run[i].line, run[i].disk)
  }

  /** Every line gets out, and a file that is moved is opened again. */
  predicate FullWrites(run: seq<Action>) {
    forall i :: 0 <= i < |run| && run[i].Append? ==>
      run[i].disk.written >= |run[i].line| && run[i].disk.opens && run[i].disk.reopens
  }

  lemma WholeStep(max: nat, f: Files, a: Action)
    requires Exact(f) && (a.Append? ==> Whole(a.line, a.disk))
    ensures Exact(Step(max, f, a))
    ensures RenameHolds(max, f, a) ==> StepWithin(max, f, a)
    ensures a.Append? && a.disk.written >= |a.line| && a.disk.opens && a.disk.reopens ==>
              (StepWithin(max, f, a) <==> RenameHolds(max, f, a))
  {
    if a.Append? {
      WholeWritesKeepExact(max, f, a.line, a.disk);
      if Ready(max, f, a.line, a.disk).slot.Some? { BoundExactly(max, f, a.line, a.disk); }
    }
  }

  /**
   * With writes that are whole or nothing the limit holds after every append if
   * no due rename fails. With lines that all get out, exactly then.
   */
  lemma {:induction false} RunWithin(max: nat, f: Files, run: seq<Action>)
    requires Exact(f) && WholeWrites(run)
    ensures RenamesHold(max, f, run) ==> WithinThroughout(max, f, run)
    ensures FullWrites(run) ==> (WithinThroughout(max, f, run) <==> RenamesHold(max, f, run))
    ensures Exact(Exec(max, f, run))
    decreases |run|
  {
    if run != [] {
      assert run[0] in run;
      WholeStep(max, f, run[0]);
      RunWithin(max, Step(max, f, run[0]), run[1..]);
    }
  }

  function Lines(run: seq<Action>): (bytes: seq<byte>) {
    if run == [] then [] else (if run[0].Append? then run[0].line else []) + Lines(run[1..])
  }

  /** A run of successful lines writes all of them. */
  lemma {:induction false} FullRunWritesAll(max: nat, f: Files, run: seq<Action>)
    requires FullWrites(run)
    ensures Outputs(max, f, run) == Lines(run)
    decreases |run|
  {
    if run != [] {
      assert run[0].Append? ==> run[0].disk.opens && run[0].disk.reopens;
      FullRunWritesAll(max, Step(max, f, run[0]), run[1..]);
    }
  }

  /** A failed rename lets the file pass its limit: nine bytes and nine more, with room for ten. */
  lemma FailedRenameOvergrows(file: seq<byte>, line: seq<byte>)
    requires |file| == 9 && |line| == 9
    ensures var disk := Disk(true, false, true, 9);
            var f := Files(None, file, []);
            Exact(f) && !Within(10, Appended(10, f, line, disk), Output(10, f, line, disk))
  {
    BoundExactly(10, Files(None, file, []), line, Disk(true, false, true, 9));
  }

  /**
   * So does a write that fails part way: the sink still believes the file
   * empty, and the next line is put behind the piece although every rename
   * would succeed.
   */
  lemma PartialWriteOvergrows(first: seq<byte>, second: seq<byte>)
    requires |first| == 9 && |second| == 10
    ensures var f := Files(None, [], []);
            var g := Appended(10, f, first, Disk(true, true, true, 8));
            var disk := Disk(true, true, true, 10);
            && Exact(f) && |g.file| == 8 && g.slot == Some(0)
            && |Appended(10, g, second, disk).file| == 18
            && !Within(10, Appended(10, g, second, disk), Output(10, g, second, disk))
  {
    var g := Appended(10, Files(None, [], []), first, Disk(true, true, true, 8));
    assert g.file == first[..8];
    BoundExactly(10, g, second, Disk(true, true, true, 10));
  }

  // ---- The sink -----------------------------------------------------------

  class Log {
    const maxBytes: nat
    var slot: Option<nat>
    var file: seq<byte>
    var backup: seq<byte>
    /** Everything ever written, oldest first. */
    ghost var history: seq<byte>

    ghost function State(): Files
      reads this
    {
      Files(slot, file, backup)
    }

    ghost predicate Valid()
      reads this
    {
      Ordered(State(), history) && Tracked(State())
    }

    constructor (maxBytes: nat, file: seq<byte>, backup: seq<byte>)
      ensures Valid() && this.maxBytes == maxBytes && State() == Files(None, file, backup)
      ensures history == backup + file
    {
      this.maxBytes, this.file, this.backup, slot := maxBytes, file, backup, None;
      history := backup + file;
    }

    /** `open_sink`. */
    method OpenSink(ok: bool)
      requires slot.None?
      modifies this`slot
      ensures State() == Opened(old(State()), ok)
    {
      if ok {
        slot := Some(|file|);
      }
    }

    method Rotate(disk: Disk)
      modifies this`slot, this`file, this`backup
      ensures State() == Rotated(old(State()), disk)
    {
      slot := None;
      if disk.renames {
        backup, file := file, [];
      }
      OpenSink(disk.reopens);
    }

    /** The sink is opened if need be, and the file rotated if it must be. */
    method Prepare(line: seq<byte>, disk: Disk)
      modifies this`slot, this`file, this`backup
      ensures State() == Ready(maxBytes, old(State()), line, disk)
    {
      if slot.None? {
        OpenSink(disk.opens);
      }
      if slot.None? {
        return;
      }
      if slot.value > 0 && slot.value + |line| > maxBytes {
        Rotate(disk);
      }
    }

    method WriteLine(line: seq<byte>, disk: Disk)
      requires slot.Some?
      modifies this`slot, this`file
      ensures State() == Written(old(State()), line, disk)
    {
      file := file + Part(line, disk);
      if disk.written >= |line| {
        slot := Some(slot.value + |line|);
      }
    }

    /** `append_line`. */
    method AppendLine(line: seq<byte>, disk: Disk)
      requires Valid()
      modifies this
      ensures Valid() && State() == Appended(maxBytes, old(State()), line, disk)
      ensures history == old(history) + Output(maxBytes, old(State()), line, disk)
    {
      AppendedOrdered(maxBytes, State(), line, disk, history);
      history := history + Output(maxBytes, State(), line, disk);
      Prepare(line, disk);
      if slot.Some? {
        WriteLine(line, disk);
      }
    }

    /** Logging switched off: the files stay, and the next append opens them again. */
    method CloseSink()
      requires Valid()
      modifies this`slot
      ensures Valid() && Exact(State()) && State() == Step(maxBytes, old(State()), Close)
    {
      slot := None;
    }

    /**
     * Every run: backup and file are the end of everything written, whatever
     * fails on the way.
     */
    method Run(run: seq<Action>)
      requires Valid()
      modifies this
      ensures Valid() && State() == Exec(maxBytes, old(State()), run)
      ensures history == old(history) + Outputs(maxBytes, old(State()), run)
    {
      ghost var end, all := Exec(maxBytes, State(), run), history + Outputs(maxBytes, State(), run);
      for i := 0 to |run|
        invariant Valid() && Exec(maxBytes, State(), run[i..]) == end
        invariant history + Outputs(maxBytes, State(), run[i..]) == all
      {
        ghost var f := State();
        assert run[i..][1..] == run[i + 1..];
        match run[i] {
          case Append(line, disk) =>
            Assoc(history, Output(maxBytes, f, line, disk), Outputs(maxBytes, Step(maxBytes, f, run[i]), run[i + 1..]));
            AppendLine(line, disk);
          case Close => CloseSink();
        }
      }
      assert run[|run|..] == [] && history + [] == history;
    }
  }
}
