/**
 The session store: a map of session entries behind a read/write lock, with model affinity, a bounded window of
 recent request hashes and three-strike escalation. Each method below is one lock section.
 */
module Session {
  import opened Prelude
  import opened Counting

  const MAX_RECENT_HASHES: nat := 10
  const THREE_STRIKE_THRESHOLD: nat := 3

  datatype Info = Info(model: string, escalated: bool)

  datatype Entry = Entry(model: string, created: nat, requestCount: nat, recent: seq<u64>, escalated: bool)

  type Sessions = map<string, Entry>

  predicate Live(ttl: nat, s: Sessions, id: string, now: nat) {
    id in s && Elapsed(now, s[id].created) < ttl
  }

  function InfoOf(e: Entry): Info {
    Info(e.model, e.escalated)
  }

  /** What the read section finds. */
  function Found(ttl: nat, s: Sessions, id: string, now: nat): Option<Info> {
    if Live(ttl, s, id, now) then Some(InfoOf(s[id])) else None
  }

  function NewEntry(model: string, stamp: nat): Entry {
    Entry(model, stamp, 0, [], false)
  }

  /** The write section tests again and creates or replaces only if there is still no live entry. */
  function AfterWrite(ttl: nat, s: Sessions, id: string, model: string, now: nat, stamp: nat): Sessions {
    if Live(ttl, s, id, now) then s else s[id := NewEntry(model, stamp)]
  }

  function WriteInfo(ttl: nat, s: Sessions, id: string, model: string, now: nat): Info {
    if Live(ttl, s, id, now) then InfoOf(s[id]) else Info(model, false)
  }

  function Slid(recent: seq<u64>, h: u64): seq<u64> {
    (if |recent| >= MAX_RECENT_HASHES then recent[1..] else recent) + [h]
  }

  ghost function RecordedEntry(e: Entry, h: u64): Entry {
    var recent := Slid(e.recent, h);
    e.(requestCount := e.requestCount + 1, recent := recent,
       escalated := e.escalated || Repeats(recent, THREE_STRIKE_THRESHOLD))
  }

  ghost function AfterRecord(s: Sessions, id: string, h: u64): Sessions {
    if id in s then s[id := RecordedEntry(s[id], h)] else s
  }

  function AfterCleanup(ttl: nat, s: Sessions, now: nat): Sessions {
    map id | id in s && Elapsed(now, s[id].created) < ttl :: s[id]
  }

  function Tally(counts: map<u64, nat>, h: u64): nat {
    if h in counts then counts[h] else 0
  }

  /** The counts of a prefix without a strike. */
  ghost predicate Counted(prefix: seq<u64>, counts: map<u64, nat>) {
    forall h: u64 :: Tally(counts, h) == |Positions(prefix, h)| < THREE_STRIKE_THRESHOLD
  }

  lemma CountStep(prefix: seq<u64>, x: u64, counts: map<u64, nat>)
    requires Counted(prefix, counts)
    ensures var count := Tally(counts, x) + 1;
            && count == |Positions(prefix + [x], x)|
            && (count < THREE_STRIKE_THRESHOLD ==> Counted(prefix + [x], counts[x := count]))
  {
    var count := Tally(counts, x) + 1;
    PositionsPush(prefix, x, x);
    if count < THREE_STRIKE_THRESHOLD {
      var after := counts[x := count];
      forall h: u64 ensures Tally(after, h) == |Positions(prefix + [x], h)| < THREE_STRIKE_THRESHOLD {
        PositionsPush(prefix, x, h);
        assert Tally(after, h) == if h == x then count else Tally(counts, h);
      }
    }
  }

  /** The counting loop of the three-strike test, with its early exit. */
  method ThreeStrikes(recent: seq<u64>) returns (strike: bool)
    ensures strike <==> Repeats(recent, 3)
  {
    var counts: map<u64, nat> := map[];
    assert forall h: u64 :: Positions(recent[..0], h) == {};
    for i := 0 to |recent|
      invariant Counted(recent[..i], counts)
    {
      var h := recent[i];
      var count := Tally(counts, h) + 1;
      CountStep(recent[..i], h, counts);
      assert recent[..i] + [h] == recent[..i + 1];
      counts := counts[h := count];
      if count >= THREE_STRIKE_THRESHOLD {
        PositionsPrefix(recent, i + 1, h);
        return true;
      }
    }
    assert recent[..|recent|] == recent;
    assert forall i :: 0 <= i < |recent| ==> Tally(counts, recent[i]) < 3;
    return false;
  }

  class SessionStore {
    var sessions: Sessions
    const ttl: nat

    constructor (ttl: nat)
      ensures sessions == map[] && this.ttl == ttl
    {
      this.ttl := ttl;
      sessions := map[];
    }

    method ReadSection(id: string, now: nat) returns (found: Option<Info>)
      ensures found == Found(ttl, sessions, id, now)
    {
      if id in sessions {
        var entry := sessions[id];
        if Elapsed(now, entry.created) < ttl {
          return Some(Info(entry.model, entry.escalated));
        }
      }
      return None;
    }

    method WriteSection(id: string, defaultModel: string, now: nat, stamp: nat) returns (info: Info)
      modifies this
      ensures info == WriteInfo(ttl, old(sessions), id, defaultModel, now)
      ensures sessions == AfterWrite(ttl, old(sessions), id, defaultModel, now, stamp)
    {
      if id in sessions {
        var entry := sessions[id];
        if Elapsed(now, entry.created) < ttl {
          return Info(entry.model, entry.escalated);
        }
      }
      sessions := sessions[id := Entry(defaultModel, stamp, 0, [], false)];
      return Info(defaultModel, false);
    }

    /** Both sections run with no other thread in between; the module `SessionThreads` interleaves them. */
    method GetOrCreate(id: string, defaultModel: string, readAt: nat, now: nat, stamp: nat) returns (info: Info)
      requires readAt <= now <= stamp
      modifies this
      ensures Live(ttl, old(sessions), id, readAt)
              ==> info == InfoOf(old(sessions)[id]) && sessions == old(sessions)
      ensures !Live(ttl, old(sessions), id, readAt)
              ==> info == WriteInfo(ttl, old(sessions), id, defaultModel, now)
                  && sessions == AfterWrite(ttl, old(sessions), id, defaultModel, now, stamp)
    {
      var found := ReadSection(id, readAt);
      if found.Some? {
        return found.value;
      }
      info := WriteSection(id, defaultModel, now, stamp);
    }

    method RecordRequest(id: string, h: u64)
      modifies this
      ensures sessions == AfterRecord(old(sessions), id, h)
    {
      if id !in sessions {
        return;
      }
      var entry := sessions[id];
      entry := entry.(requestCount := entry.requestCount + 1);
      if |entry.recent| >= MAX_RECENT_HASHES {
        entry := entry.(recent := entry.recent[1..]);
      }
      entry := entry.(recent := entry.recent + [h]);
      if !entry.escalated {
        var strike := ThreeStrikes(entry.recent);
        if strike {
          entry := entry.(escalated := true);
        }
      }
      sessions := sessions[id := entry];
    }

    /** Visits the entries in any order and removes the expired ones. */
    method CleanupExpired(now: nat)
      modifies this
      ensures sessions == AfterCleanup(ttl, old(sessions), now)
      ensures forall id :: id in sessions <==> id in old(sessions) && Elapsed(now, old(sessions)[id].created) < ttl
    {
      var unseen := sessions.Keys;
      ghost var before := sessions;
      while unseen != {}
        invariant unseen <= sessions.Keys
        invariant sessions == map id | id in before && (id in unseen || Elapsed(now, before[id].created) < ttl) :: before[id]
        decreases unseen
      {
        var id :| id in unseen;
        unseen := unseen - {id};
        if Elapsed(now, sessions[id].created) >= ttl {
          sessions := sessions - {id};
        }
      }
    }
  }

  // ---------------------------------------------------------------- the window refines the full history

  /** An entry after recording a whole sequence of hashes. */
  ghost function Recorded(e: Entry, hashes: seq<u64>): Entry {
    if hashes == [] then e
    else RecordedEntry(Recorded(e, hashes[..|hashes| - 1]), hashes[|hashes| - 1])
  }

  function LastTen(hashes: seq<u64>): seq<u64> {
    if |hashes| <= 10 then hashes else hashes[|hashes| - 10..]
  }

  /** Three equal hashes among ten consecutive requests. */
  ghost predicate ThreeWithinTen(hashes: seq<u64>) {
    exists i, j, k :: Triple(hashes, i, j, k) && k - i < 10
  }

  lemma ThreeInWindow(all: seq<u64>)
    requires Repeats(LastTen(all), THREE_STRIKE_THRESHOLD)
    ensures ThreeWithinTen(all)
  {
    var w := LastTen(all);
    var base := |all| - |w|;
    ThreePositions(w);
    var i, j, k :| Triple(w, i, j, k);
    assert Triple(all, base + i, base + j, base + k);
  }

  lemma WindowHasThree(all: seq<u64>, i: int, j: int, k: int)
    requires Triple(all, i, j, k) && k - i < MAX_RECENT_HASHES && k == |all| - 1
    ensures Repeats(LastTen(all), THREE_STRIKE_THRESHOLD)
  {
    var w := LastTen(all);
    var base := |all| - |w|;
    assert Triple(w, i - base, j - base, k - base);
    ThreePositions(w);
  }

  lemma ThreeWithinTenStep(before: seq<u64>, h: u64)
    ensures ThreeWithinTen(before + [h])
            <==> ThreeWithinTen(before) || Repeats(LastTen(before + [h]), THREE_STRIKE_THRESHOLD)
  {
    var all := before + [h];
    if i, j, k :| Triple(all, i, j, k) && k - i < MAX_RECENT_HASHES {
      if k < |before| {
        assert Triple(before, i, j, k);
      } else {
        WindowHasThree(all, i, j, k);
      }
    }
    if i, j, k :| Triple(before, i, j, k) && k - i < MAX_RECENT_HASHES {
      assert Triple(all, i, j, k);
    }
    if Repeats(LastTen(all), THREE_STRIKE_THRESHOLD) {
      ThreeInWindow(all);
    }
  }

  lemma SlidLastTen(before: seq<u64>, h: u64)
    ensures Slid(LastTen(before), h) == LastTen(before + [h])
  {
    var all := before + [h];
    if |before| >= MAX_RECENT_HASHES {
      assert LastTen(before)[1..] == before[|before| - MAX_RECENT_HASHES + 1..];
      assert all[|all| - MAX_RECENT_HASHES..] == before[|before| - MAX_RECENT_HASHES + 1..] + [h];
    }
  }

  /** The ten-slot window and the sticky flag decide exactly the property of the whole recorded sequence. */
  lemma {:induction false} WindowRefinesHistory(model: string, stamp: nat, hashes: seq<u64>)
    ensures var e := Recorded(NewEntry(model, stamp), hashes);
            && e.model == model && e.created == stamp && e.requestCount == |hashes|
            && e.recent == LastTen(hashes)
            && (e.escalated <==> ThreeWithinTen(hashes))
  {
    if hashes != [] {
      var before, h := hashes[..|hashes| - 1], hashes[|hashes| - 1];
      WindowRefinesHistory(model, stamp, before);
      assert hashes == before + [h];
      ThreeWithinTenStep(before, h);
      SlidLastTen(before, h);
    }
  }
}
