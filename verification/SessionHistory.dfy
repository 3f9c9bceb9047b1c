/** Whole runs of the session store, one atomic operation after another. */
module SessionHistory {
  import opened Prelude
  import opened Session

  /** `now` is the clock reading of the expiry test, `stamp` the later one given to an entry that is created. */
  datatype Op =
    | GetOrCreate(id: string, model: string, now: nat, stamp: nat)
    | Record(id: string, hash: u64)
    | Cleanup(now: nat)

  ghost function Apply(ttl: nat, s: Sessions, op: Op): Sessions {
    match op
    case GetOrCreate(id, model, now, stamp) => AfterWrite(ttl, s, id, model, now, stamp)
    case Record(id, h) => AfterRecord(s, id, h)
    case Cleanup(now) => AfterCleanup(ttl, s, now)
  }

  ghost function Run(ttl: nat, ops: seq<Op>): Sessions {
    if ops == [] then map[] else Apply(ttl, Run(ttl, ops[..|ops| - 1]), ops[|ops| - 1])
  }

  ghost function Clock(ops: seq<Op>): nat {
    if ops == [] then 0
    else match ops[|ops| - 1]
      case GetOrCreate(_, _, _, stamp) => stamp
      case Record(_, _) => Clock(ops[..|ops| - 1])
      case Cleanup(now) => now
  }

  ghost predicate Timed(ops: seq<Op>) {
    ops == [] ||
    (var before := ops[..|ops| - 1];
     Timed(before) &&
     match ops[|ops| - 1]
     case GetOrCreate(_, _, now, stamp) => Clock(before) <= now <= stamp
     case Record(_, _) => true
     case Cleanup(now) => Clock(before) <= now)
  }

  /** What `get_or_create` returns as operation `i` of the run. */
  ghost function InfoAt(ttl: nat, ops: seq<Op>, i: nat): Info
    requires i < |ops| && ops[i].GetOrCreate?
  {
    WriteInfo(ttl, Run(ttl, ops[..i]), ops[i].id, ops[i].model, ops[i].now)
  }

  lemma {:induction false} TimedPrefix(ops: seq<Op>, n: nat)
    requires Timed(ops) && n <= |ops|
    ensures Timed(ops[..n]) && Clock(ops[..n]) <= Clock(ops)
  {
    if n < |ops| {
      TimedPrefix(ops[..|ops| - 1], n);
      assert ops[..|ops| - 1][..n] == ops[..n];
    } else {
      assert ops[..n] == ops;
    }
  }

  lemma RunStep(ttl: nat, ops: seq<Op>, n: nat)
    requires n < |ops|
    ensures Run(ttl, ops[..n + 1]) == Apply(ttl, Run(ttl, ops[..n]), ops[n])
  {
    assert ops[..n + 1][..n] == ops[..n];
  }

  lemma ClockStep(ops: seq<Op>, n: nat)
    requires n < |ops| && Timed(ops)
    ensures Timed(ops[..n]) && Clock(ops[..n]) <= Clock(ops[..n + 1])
    ensures ops[n].GetOrCreate? ==> Clock(ops[..n]) <= ops[n].now <= ops[n].stamp == Clock(ops[..n + 1])
    ensures ops[n].Cleanup? ==> Clock(ops[..n]) <= ops[n].now == Clock(ops[..n + 1])
  {
    TimedPrefix(ops, n);
    TimedPrefix(ops, n + 1);
    assert ops[..n + 1][..n] == ops[..n];
  }

  lemma ClockMonotone(ops: seq<Op>, m: nat, n: nat)
    requires Timed(ops) && m <= n <= |ops|
    ensures Clock(ops[..m]) <= Clock(ops[..n])
  {
    TimedPrefix(ops, n);
    TimedPrefix(ops[..n], m);
    assert ops[..n][..m] == ops[..m];
  }

  // ---------------------------------------------------------------- lifetimes

  /** Operation `i` creates, or replaces, the entry of `id`. */
  ghost predicate CreatesAt(ttl: nat, ops: seq<Op>, i: nat, id: string) {
    i < |ops| && ops[i].GetOrCreate? && ops[i].id == id && !Live(ttl, Run(ttl, ops[..i]), id, ops[i].now)
  }

  ghost predicate SameLifetime(ttl: nat, a: Sessions, b: Sessions, id: string, t: nat) {
    Live(ttl, a, id, t) && Live(ttl, b, id, t) && a[id].model == b[id].model && a[id].created == b[id].created
  }

  lemma PersistsStep(ttl: nat, s: Sessions, op: Op, id: string, t: nat)
    requires op.GetOrCreate? ==> op.now <= t
    requires op.Cleanup? ==> op.now <= t
    requires Live(ttl, s, id, t)
    ensures SameLifetime(ttl, s, Apply(ttl, s, op), id, t)
  {
    if op.GetOrCreate? || op.Cleanup? {
      assert Live(ttl, s, id, op.now);
    }
  }

  /** An entry that is live at a time not yet reached stays, with its model and creation time, until then. */
  lemma {:induction false} Persists(ttl: nat, ops: seq<Op>, m: nat, n: nat, id: string, t: nat)
    requires Timed(ops) && m <= n <= |ops| && Clock(ops[..n]) <= t
    requires Live(ttl, Run(ttl, ops[..m]), id, t)
    ensures SameLifetime(ttl, Run(ttl, ops[..m]), Run(ttl, ops[..n]), id, t)
    decreases n
  {
    if m < n {
      var p := n - 1;
      ClockStep(ops, p);
      Persists(ttl, ops, m, p, id, t);
      RunStep(ttl, ops, p);
      PersistsStep(ttl, Run(ttl, ops[..p]), ops[p], id, t);
    }
  }

  /** Two creations for one id are at least the time to live apart. */
  lemma CreationsAreSpaced(ttl: nat, ops: seq<Op>, i: nat, j: nat, id: string)
    requires Timed(ops) && i < j && CreatesAt(ttl, ops, i, id) && CreatesAt(ttl, ops, j, id)
    ensures ops[j].now >= ops[i].stamp + ttl
  {
    RunStep(ttl, ops, i);
    ClockStep(ops, i);
    ClockStep(ops, j);
    ClockMonotone(ops, i + 1, j);
    if ops[j].now < ops[i].stamp + ttl {
      Persists(ttl, ops, i + 1, j, id, ops[j].now);
    }
  }

  /** After a call at time `now`, the store holds an entry with the model it returned, live for as long as its lifetime lasts. */
  lemma AfterCall(ttl: nat, ops: seq<Op>, j: nat, t: nat)
    requires j < |ops| && Timed(ops) && ops[j].GetOrCreate?
    requires Live(ttl, Run(ttl, ops[..j]), ops[j].id, ops[j].now) || ops[j].stamp <= t < ops[j].stamp + ttl
    ensures var s, id := Run(ttl, ops[..j + 1]), ops[j].id;
            id in s && s[id].model == InfoAt(ttl, ops, j).model
            && (CreatesAt(ttl, ops, j, id) ==> s[id].created == ops[j].stamp && s[id].model == ops[j].model
                                               && Live(ttl, s, id, t))
            && (!CreatesAt(ttl, ops, j, id) ==> s == Run(ttl, ops[..j]))
  {
    RunStep(ttl, ops, j);
  }

  /** Every call whose test falls in the lifetime of a creation returns that creation's model, in whatever order they ran. */
  lemma CallsInLifetimeAgree(ttl: nat, ops: seq<Op>, i: nat, j: nat, id: string)
    requires Timed(ops) && CreatesAt(ttl, ops, i, id)
    requires j < |ops| && ops[j].GetOrCreate? && ops[j].id == id
    requires ops[i].stamp <= ops[j].now < ops[i].stamp + ttl
    ensures InfoAt(ttl, ops, j).model == ops[i].model
  {
    ClockStep(ops, i);
    ClockStep(ops, j);
    var t := ops[j].now;
    if i < j {
      AfterCall(ttl, ops, i, t);
      ClockMonotone(ops, i + 1, j);
      Persists(ttl, ops, i + 1, j, id, t);
    } else if j < i {
      ClockMonotone(ops, j + 1, i);
      assert t == ops[i].now == ops[i].stamp == ops[j].stamp;
      AfterCall(ttl, ops, j, t);
      Persists(ttl, ops, j + 1, i, id, t);
    }
  }

  ghost function HashesSince(ops: seq<Op>, i: nat, id: string): seq<u64> {
    if |ops| <= i + 1 then []
    else
      var last := ops[|ops| - 1];
      HashesSince(ops[..|ops| - 1], i, id) + (if last.Record? && last.id == id then [last.hash] else [])
  }

  /** The entry of `id` is what its last creation and the hashes recorded since make of it. */
  lemma {:induction false} EntryIsItsHistory(ttl: nat, ops: seq<Op>, id: string) returns (i: nat)
    requires id in Run(ttl, ops)
    ensures CreatesAt(ttl, ops, i, id) && forall j :: i < j < |ops| ==> !CreatesAt(ttl, ops, j, id)
    ensures Run(ttl, ops)[id] == Recorded(NewEntry(ops[i].model, ops[i].stamp), HashesSince(ops, i, id))
  {
    var n := |ops| - 1;
    var before, op := ops[..n], ops[n];
    if CreatesAt(ttl, ops, n, id) {
      i := n;
    } else {
      i := EntryIsItsHistory(ttl, before, id);
      assert before[..i] == ops[..i];
      forall j | i < j < |ops| ensures !CreatesAt(ttl, ops, j, id) {
        if j < n {
          assert before[..j] == ops[..j];
          assert !CreatesAt(ttl, before, j, id);
        }
      }
      var hs := HashesSince(before, i, id);
      if op.Record? && op.id == id {
        assert HashesSince(ops, i, id) == hs + [op.hash];
        assert (hs + [op.hash])[..|hs|] == hs;
      } else {
        assert HashesSince(ops, i, id) == hs;
      }
    }
  }

  /**
   Every call returns the model of a creation whose lifetime it falls in, possibly its own, and reports escalation
   exactly if three equal hashes were recorded within ten consecutive requests since that creation.
   */
  lemma EveryCallHasCreation(ttl: nat, ops: seq<Op>, j: nat) returns (i: nat)
    requires Timed(ops) && j < |ops| && ops[j].GetOrCreate?
    ensures i <= j && CreatesAt(ttl, ops, i, ops[j].id)
    ensures i < j ==> ops[i].stamp <= ops[j].now < ops[i].stamp + ttl
    ensures InfoAt(ttl, ops, j).model == ops[i].model
    ensures InfoAt(ttl, ops, j).escalated <==> i < j && ThreeWithinTen(HashesSince(ops[..j], i, ops[j].id))
  {
    if CreatesAt(ttl, ops, j, ops[j].id) {
      i := j;
    } else {
      i := EntryIsItsHistory(ttl, ops[..j], ops[j].id);
      assert ops[..j][..i] == ops[..i];
      ClockStep(ops, i);
      ClockStep(ops, j);
      ClockMonotone(ops, i + 1, j);
      WindowRefinesHistory(ops[i].model, ops[i].stamp, HashesSince(ops[..j], i, ops[j].id));
    }
  }

  /** Call `j` has its session from creation `i`: its own, or one whose lifetime it falls in. */
  ghost predicate SourceOf(ttl: nat, ops: seq<Op>, i: nat, j: nat)
    requires j < |ops| && ops[j].GetOrCreate?
  {
    CreatesAt(ttl, ops, i, ops[j].id) && (i == j || ops[i].stamp <= ops[j].now < ops[i].stamp + ttl)
  }

  /** A call has no two sources. */
  lemma OneSource(ttl: nat, ops: seq<Op>, i: nat, k: nat, j: nat)
    requires Timed(ops) && j < |ops| && ops[j].GetOrCreate?
    requires SourceOf(ttl, ops, i, j) && SourceOf(ttl, ops, k, j)
    ensures i == k
  {
    ClockStep(ops, i);
    ClockStep(ops, k);
    ClockStep(ops, j);
    if i < k {
      CreationsAreSpaced(ttl, ops, i, k, ops[j].id);
    } else if k < i {
      CreationsAreSpaced(ttl, ops, k, i, ops[j].id);
    }
  }

  lemma {:induction false} RecordedKeeps(e: Entry, hashes: seq<u64>, more: seq<u64>)
    ensures Recorded(e, hashes).escalated ==> Recorded(e, hashes + more).escalated
  {
    if more == [] {
      assert hashes + more == hashes;
    } else {
      RecordedKeeps(e, hashes, more[..|more| - 1]);
      assert (hashes + more)[..|hashes + more| - 1] == hashes + more[..|more| - 1];
    }
  }

  // ---------------------------------------------------------------- cleanup

  /** The results of all `get_or_create` calls of a run, in order. */
  ghost function Outputs(ttl: nat, ops: seq<Op>): seq<Info> {
    if ops == [] then []
    else
      var n := |ops| - 1;
      Outputs(ttl, ops[..n]) + (if ops[n].GetOrCreate? then [InfoAt(ttl, ops, n)] else [])
  }

  ghost function WithoutCleanups(ops: seq<Op>): seq<Op> {
    if ops == [] then []
    else
      var n := |ops| - 1;
      WithoutCleanups(ops[..n]) + (if ops[n].Cleanup? then [] else [ops[n]])
  }

  /** Two stores agree on their unexpired entries. */
  ghost predicate SameLive(ttl: nat, a: Sessions, b: Sessions, clock: nat) {
    forall id :: Live(ttl, a, id, clock) == Live(ttl, b, id, clock)
                 && (Live(ttl, a, id, clock) ==> a[id] == b[id])
  }

  lemma SameLiveLater(ttl: nat, a: Sessions, b: Sessions, clock: nat, later: nat)
    requires SameLive(ttl, a, b, clock) && clock <= later
    ensures SameLive(ttl, a, b, later)
  {
    forall id ensures Live(ttl, a, id, later) == Live(ttl, b, id, later) && (Live(ttl, a, id, later) ==> a[id] == b[id]) {
      assert Live(ttl, a, id, later) ==> Live(ttl, a, id, clock);
      assert Live(ttl, b, id, later) ==> Live(ttl, b, id, clock);
      assert Live(ttl, a, id, clock) == Live(ttl, b, id, clock);
    }
  }

  lemma SameLiveWrite(ttl: nat, a: Sessions, b: Sessions, id: string, model: string, now: nat, stamp: nat)
    requires SameLive(ttl, a, b, now) && now <= stamp
    ensures WriteInfo(ttl, a, id, model, now) == WriteInfo(ttl, b, id, model, now)
    ensures SameLive(ttl, AfterWrite(ttl, a, id, model, now, stamp), AfterWrite(ttl, b, id, model, now, stamp), stamp)
  {
    assert Live(ttl, a, id, now) == Live(ttl, b, id, now);
    SameLiveLater(ttl, a, b, now, stamp);
    var a', b' := AfterWrite(ttl, a, id, model, now, stamp), AfterWrite(ttl, b, id, model, now, stamp);
    forall k ensures Live(ttl, a', k, stamp) == Live(ttl, b', k, stamp) && (Live(ttl, a', k, stamp) ==> a'[k] == b'[k]) {
      assert Live(ttl, a, k, stamp) == Live(ttl, b, k, stamp);
    }
  }

  lemma SameLiveRecord(ttl: nat, a: Sessions, b: Sessions, clock: nat, id: string, h: u64)
    requires SameLive(ttl, a, b, clock)
    ensures SameLive(ttl, AfterRecord(a, id, h), AfterRecord(b, id, h), clock)
  {
    var a', b' := AfterRecord(a, id, h), AfterRecord(b, id, h);
    forall k ensures Live(ttl, a', k, clock) == Live(ttl, b', k, clock) && (Live(ttl, a', k, clock) ==> a'[k] == b'[k]) {
      assert Live(ttl, a, k, clock) == Live(ttl, b, k, clock);
      assert Live(ttl, a', k, clock) == Live(ttl, a, k, clock) && Live(ttl, b', k, clock) == Live(ttl, b, k, clock);
    }
  }

  lemma SameLiveCleanup(ttl: nat, a: Sessions, b: Sessions, now: nat)
    requires SameLive(ttl, a, b, now)
    ensures SameLive(ttl, AfterCleanup(ttl, a, now), b, now)
  {
    var a' := AfterCleanup(ttl, a, now);
    forall k ensures Live(ttl, a', k, now) == Live(ttl, b, k, now) && (Live(ttl, a', k, now) ==> a'[k] == b[k]) {
      assert Live(ttl, a, k, now) == Live(ttl, b, k, now);
    }
  }

  /** One operation on two stores that agree on unexpired entries; a cleanup may be left out of the second. */
  lemma SameLiveStep(ttl: nat, a: Sessions, b: Sessions, clock: nat, op: Op)
    requires SameLive(ttl, a, b, clock)
    requires op.GetOrCreate? ==> clock <= op.now <= op.stamp
    requires op.Cleanup? ==> clock <= op.now
    ensures op.GetOrCreate? ==> WriteInfo(ttl, a, op.id, op.model, op.now) == WriteInfo(ttl, b, op.id, op.model, op.now)
                                && SameLive(ttl, Apply(ttl, a, op), Apply(ttl, b, op), op.stamp)
    ensures op.Record? ==> SameLive(ttl, Apply(ttl, a, op), Apply(ttl, b, op), clock)
    ensures op.Cleanup? ==> SameLive(ttl, Apply(ttl, a, op), b, op.now)
  {
    match op
    case GetOrCreate(id, model, now, stamp) =>
      SameLiveLater(ttl, a, b, clock, now);
      SameLiveWrite(ttl, a, b, id, model, now, stamp);
    case Record(id, h) =>
      SameLiveRecord(ttl, a, b, clock, id, h);
    case Cleanup(now) =>
      SameLiveLater(ttl, a, b, clock, now);
      SameLiveCleanup(ttl, a, b, now);
  }

  lemma Append(ttl: nat, ops: seq<Op>, op: Op)
    ensures Run(ttl, ops + [op]) == Apply(ttl, Run(ttl, ops), op)
    ensures Outputs(ttl, ops + [op])
            == Outputs(ttl, ops) + (if op.GetOrCreate?
                                    then [WriteInfo(ttl, Run(ttl, ops), op.id, op.model, op.now)] else [])
    ensures op.GetOrCreate? ==> Timed(ops + [op]) == (Timed(ops) && Clock(ops) <= op.now <= op.stamp)
                                && Clock(ops + [op]) == op.stamp
    ensures op.Record? ==> Timed(ops + [op]) == Timed(ops) && Clock(ops + [op]) == Clock(ops)
    ensures op.Cleanup? ==> Timed(ops + [op]) == (Timed(ops) && Clock(ops) <= op.now) && Clock(ops + [op]) == op.now
  {
    assert (ops + [op])[..|ops|] == ops;
  }

  lemma {:induction false} CleanupSimulation(ttl: nat, ops: seq<Op>)
    requires Timed(ops)
    ensures var kept := WithoutCleanups(ops);
            && Timed(kept) && Clock(kept) <= Clock(ops)
            && SameLive(ttl, Run(ttl, ops), Run(ttl, kept), Clock(ops))
            && Outputs(ttl, ops) == Outputs(ttl, kept)
  {
    if ops != [] {
      var n := |ops| - 1;
      var before, op := ops[..n], ops[n];
      var kept := WithoutCleanups(before);
      CleanupSimulation(ttl, before);
      assert ops == before + [op];
      Append(ttl, before, op);
      Append(ttl, kept, op);
      SameLiveStep(ttl, Run(ttl, before), Run(ttl, kept), Clock(before), op);
      assert WithoutCleanups(ops) == if op.Cleanup? then kept else kept + [op];
    }
  }

  /** A cleanup removes exactly the entries created at least the time to live ago and leaves the others as they are. */
  lemma CleanupRemovesExpired(ttl: nat, ops: seq<Op>, now: nat, id: string)
    requires Timed(ops) && Clock(ops) <= now
    ensures var before, after := Run(ttl, ops), Run(ttl, ops + [Cleanup(now)]);
            && (id in after <==> id in before && now < before[id].created + ttl)
            && (id in after ==> after[id] == before[id])
  {
    Append(ttl, ops, Cleanup(now));
    if id in Run(ttl, ops) {
      var i := EntryIsItsHistory(ttl, ops, id);
      ClockStep(ops, i);
      ClockMonotone(ops, i + 1, |ops|);
      assert ops[..|ops|] == ops;
      EntryCreated(NewEntry(ops[i].model, ops[i].stamp), HashesSince(ops, i, id));
    }
  }

  lemma {:induction false} EntryCreated(e: Entry, hashes: seq<u64>)
    ensures Recorded(e, hashes).created == e.created
  {
    if hashes != [] {
      EntryCreated(e, hashes[..|hashes| - 1]);
    }
  }

  /** Cleanup is unobservable: runs that differ only in their cleanups give every caller the same results. */
  lemma CleanupUnobservable(ttl: nat, a: seq<Op>, b: seq<Op>)
    requires Timed(a) && Timed(b) && WithoutCleanups(a) == WithoutCleanups(b)
    ensures Outputs(ttl, a) == Outputs(ttl, b)
  {
    CleanupSimulation(ttl, a);
    CleanupSimulation(ttl, b);
  }
}
