/** The short-lived cache of system DNS answers. */
module DnsCache {
  import opened Options

  const TTL := 30_000
  const MAX_ENTRIES := 1024

  datatype Entry = Entry(addrs: seq<string>, resolved: nat)

  /**
   * The two critical sections of a resolution; another thread's may run
   * between them. Times are milliseconds of one clock, the second one of a
   * store read after the first.
   */
  datatype Action =
    | Lookup(host: string, now: nat)
    | Store(host: string, addrs: seq<string>, pruned: nat, now: nat)

  function Elapsed(now: nat, since: nat): (d: nat) {
    if now < since then 0 else now - since
  }

  predicate Monotone(run: seq<Action>) {
    forall i, j :: 0 <= i < j < |run| ==> run[i].now <= run[j].now
  }

  /** The last answer recorded for a host. */
  function LastStored(run: seq<Action>, host: string): (r: Option<Entry>) {
    if run == [] then None
    else
      var last := run[|run| - 1];
      if last.Store? && last.host == host then Some(Entry(last.addrs, last.now))
      else LastStored(run[..|run| - 1], host)
  }

  predicate Answers(run: seq<Action>, query: Action, addrs: seq<string>) {
    var last := LastStored(run, query.host);
    last.Some? && last.value.addrs == addrs && Elapsed(query.now, last.value.resolved) < TTL
  }

  class Cache {
    var entries: map<string, Entry>
    ghost var run: seq<Action>

    /** The cache is bounded and holds nothing but the last answer recorded for each host. */
    ghost predicate Valid()
      reads this
    {
      && |entries| <= MAX_ENTRIES
      && forall host :: host in entries ==> LastStored(run, host) == Some(entries[host])
    }

    constructor ()
      ensures Valid() && entries == map[] && run == []
    {
      entries, run := map[], [];
    }

    method Find(host: string, now: nat) returns (r: Option<seq<string>>)
      requires Valid()
      modifies this`run
      ensures Valid() && run == old(run) + [Lookup(host, now)]
      ensures r.Some? <==> host in entries && Elapsed(now, entries[host].resolved) < TTL
      ensures r.Some? ==>
                var last := LastStored(old(run), host);
                last.Some? && last.value.addrs == r.value && Elapsed(now, last.value.resolved) < TTL
    {
      r := None;
      if host in entries && Elapsed(now, entries[host].resolved) < TTL {
        r := Some(entries[host].addrs);
      }
      run := run + [Lookup(host, now)];
      assert run[..|run| - 1] == old(run);
    }

    /** A full cache drops its stale entries, and all of them if that frees nothing. */
    method Evict(now: nat)
      requires Valid()
      modifies this`entries
      ensures Valid() && |entries| < MAX_ENTRIES
      ensures forall host :: host in entries ==> host in old(entries) && entries[host] == old(entries)[host]
      ensures |old(entries)| < MAX_ENTRIES ==> entries == old(entries)
      ensures entries == map[] || forall host :: host in old(entries) && host !in entries ==>
                Elapsed(now, old(entries)[host].resolved) >= TTL
    {
      if |entries| >= MAX_ENTRIES {
        var young := map host | host in entries && Elapsed(now, entries[host].resolved) < TTL :: entries[host];
        entries := if |young| >= MAX_ENTRIES then map[] else young;
      }
    }

    method Record(host: string, addrs: seq<string>, pruned: nat, now: nat)
      requires Valid()
      modifies this
      ensures Valid() && run == old(run) + [Store(host, addrs, pruned, now)]
      ensures host in entries && entries[host] == Entry(addrs, now)
      ensures |old(entries)| < MAX_ENTRIES ==> entries == old(entries)[host := Entry(addrs, now)]
    {
      Evict(pruned);
      entries := entries[host := Entry(addrs, now)];
      run := run + [Store(host, addrs, pruned, now)];
      assert run[..|run| - 1] == old(run);
    }

    method Step(action: Action) returns (answer: Option<seq<string>>)
      requires Valid()
      modifies this
      ensures Valid() && run == old(run) + [action]
      ensures answer.Some? ==> action.Lookup? && Answers(old(run), action, answer.value)
    {
      answer := None;
      match action {
        case Lookup(host, now) => answer := Find(host, now);
        case Store(host, addrs, pruned, now) => Record(host, addrs, pruned, now);
      }
    }
  }

  /** An answer from the cache was recorded for that host, last of all, less than the limit before. */
  ghost predicate Sound(run: seq<Action>, i: nat, answer: Option<seq<string>>)
    requires i < |run|
  {
    answer.Some? ==>
      var last := LastStored(run[..i], run[i].host);
      run[i].Lookup? && last.Some? && last.value.addrs == answer.value
      && last.value.resolved <= run[i].now < last.value.resolved + TTL
  }

  lemma {:induction false} StoredAt(run: seq<Action>, host: string) returns (k: nat)
    requires LastStored(run, host).Some?
    ensures k < |run| && run[k].Store? && run[k].host == host
    ensures LastStored(run, host) == Some(Entry(run[k].addrs, run[k].now))
  {
    var last := run[|run| - 1];
    if last.Store? && last.host == host {
      k := |run| - 1;
    } else {
      k := StoredAt(run[..|run| - 1], host);
    }
  }

  lemma StoredBefore(run: seq<Action>, i: nat, host: string)
    requires i < |run| && Monotone(run) && LastStored(run[..i], host).Some?
    ensures LastStored(run[..i], host).value.resolved <= run[i].now
  {
    var k := StoredAt(run[..i], host);
    assert run[k].now <= run[i].now;
  }

  lemma SoundHere(run: seq<Action>, i: nat, answer: Option<seq<string>>)
    requires i < |run| && Monotone(run)
    requires answer.Some? ==> run[i].Lookup? && Answers(run[..i], run[i], answer.value)
    ensures Sound(run, i, answer)
  {
    if answer.Some? { StoredBefore(run, i, run[i].host); }
  }

  lemma OneMore(run: seq<Action>, i: nat)
    requires i < |run|
    ensures run[..i + 1] == run[..i] + [run[i]]
  {
  }

  /** Any interleaving of lookups and stores on one clock. */
  method Play(run: seq<Action>) returns (answers: seq<Option<seq<string>>>, size: nat)
    requires Monotone(run)
    ensures |answers| == |run| && size <= MAX_ENTRIES
    ensures forall i :: 0 <= i < |run| ==> Sound(run, i, answers[i])
  {
    var cache := new Cache();
    answers := [];
    for i := 0 to |run|
      invariant |answers| == i && cache.Valid() && cache.run == run[..i]
      invariant forall k :: 0 <= k < i ==> Sound(run, k, answers[k])
    {
      OneMore(run, i);
      var answer := cache.Step(run[i]);
      SoundHere(run, i, answer);
      answers := answers + [answer];
    }
    size := |cache.entries|;
  }
}
