/**
 The cache against its history. A run is a list of timed `get` and `put` operations; `History` reads off from
 the run alone what the last touch of a key was, and the lemmas say what a `get` then returns.
 */
module CacheHistory {
  import opened Prelude
  import opened Cache
  import Counting

  datatype Op<V> = Get(key: Key, now: nat) | Put(key: Key, value: V, now: nat, stamp: nat)

  function End<V>(op: Op<V>): nat {
    if op.Get? then op.now else op.stamp
  }

  function Apply<V>(cfg: Config, l: seq<Slot<V>>, op: Op<V>): seq<Slot<V>>
    requires cfg.capacity >= 1
  {
    match op
    case Get(k, now) => AfterGet(cfg, l, k, now)
    case Put(k, v, now, stamp) => AfterPut(cfg, l, k, v, now, stamp)
  }

  function Run<V>(cfg: Config, ops: seq<Op<V>>): seq<Slot<V>>
    requires cfg.capacity >= 1
  {
    if ops == [] then [] else Apply(cfg, Run(cfg, ops[..|ops| - 1]), ops[|ops| - 1])
  }

  /** The last clock reading of a run. */
  function Clock<V>(ops: seq<Op<V>>): nat {
    if ops == [] then 0 else End(ops[|ops| - 1])
  }

  /** Clock readings never decrease. */
  ghost predicate Timed<V>(ops: seq<Op<V>>) {
    ops == [] ||
    (var op := ops[|ops| - 1];
     Timed(ops[..|ops| - 1]) && Clock(ops[..|ops| - 1]) <= op.now <= End(op))
  }

  lemma {:induction false} RunWf<V>(cfg: Config, ops: seq<Op<V>>)
    requires cfg.capacity >= 1
    ensures Wf(Run(cfg, ops), cfg.capacity)
  {
    if ops != [] {
      RunWf(cfg, ops[..|ops| - 1]);
      var l, op := Run(cfg, ops[..|ops| - 1]), ops[|ops| - 1];
      WithoutWf(l, op.key);
      if op.Put? {
        PushedWf(l, cfg.capacity, Slot(op.key, op.value, op.stamp));
      } else if Has(l, op.key) {
        PromotedWf(l, cfg.capacity, op.key);
      }
    }
  }

  // ---------------------------------------------------------------- what history says

  /** An operation touches its key if it is a live hit or a put outside the dedup window. */
  predicate Touches<V>(cfg: Config, l: seq<Slot<V>>, op: Op<V>) {
    match op
    case Get(k, now) => Live(cfg, l, k, now)
    case Put(k, _, now, _) => Effective(cfg, l, k, now)
  }

  /** For a key touched at least once: the other keys touched since its last touch, and its last effective put. */
  datatype Record<V> = Record(others: set<Key>, value: V, stamp: nat)

  function History<V>(cfg: Config, ops: seq<Op<V>>, k: Key): Option<Record<V>>
    requires cfg.capacity >= 1
  {
    if ops == [] then None
    else
      var before, op := ops[..|ops| - 1], ops[|ops| - 1];
      var h := History(cfg, before, k);
      if !Touches(cfg, Run(cfg, before), op) then h
      else if op.key != k then
        if h.Some? then Some(h.value.(others := h.value.others + {op.key})) else None
      else if op.Put? then Some(Record({}, op.value, op.stamp))
      else if h.Some? then Some(h.value.(others := {}))
      else None
  }

  /** The keys in front of `k`, all keys if `k` is absent. */
  ghost function Ahead<V>(l: seq<Slot<V>>, k: Key): set<Key> {
    if l == [] || l[0].key == k then {} else {l[0].key} + Ahead(l[1..], k)
  }

  lemma {:induction false} AheadSize<V>(l: seq<Slot<V>>, k: Key)
    requires Distinct(l)
    ensures |Ahead(l, k)| == IndexOf(l, k)
    ensures forall x :: x in Ahead(l, k) ==> Has(l, x)
  {
    if l != [] && l[0].key != k {
      AheadSize(l[1..], k);
      assert !Has(l[1..], l[0].key);
    }
  }

  /** How the list and the record of one key agree. */
  ghost predicate Agrees<V>(cfg: Config, l: seq<Slot<V>>, h: Option<Record<V>>, k: Key, clock: nat) {
    && (h.Some? ==> k !in h.value.others && h.value.stamp <= clock)
    && (Has(l, k) ==> h.Some? && Lookup(l, k) == Slot(k, h.value.value, h.value.stamp)
                      && Ahead(l, k) <= h.value.others)
    && (h.Some? && !Has(l, k) ==> |h.value.others| >= cfg.capacity || Elapsed(clock, h.value.stamp) > cfg.ttl)
  }

  /** Passing over a first slot with another key. */
  lemma ConsAhead<V>(slot: Slot<V>, l: seq<Slot<V>>, k: Key)
    requires slot.key != k
    ensures Has([slot] + l, k) == Has(l, k)
    ensures Has(l, k) ==> Lookup([slot] + l, k) == Lookup(l, k)
    ensures Ahead([slot] + l, k) == {slot.key} + Ahead(l, k)
  {
    assert ([slot] + l)[1..] == l;
  }

  lemma {:induction false} WithoutOther<V>(l: seq<Slot<V>>, j: Key, k: Key)
    requires Distinct(l) && j != k
    ensures Has(Without(l, j), k) == Has(l, k)
    ensures Has(l, k) ==> Lookup(Without(l, j), k) == Lookup(l, k)
    ensures Ahead(Without(l, j), k) == Ahead(l, k) - {j}
  {
    if l != [] {
      var first, rest := l[0], l[1..];
      assert l == [first] + rest;
      if first.key == k {
        assert Without(l, j) == [first] + Without(rest, j);
      } else if first.key == j {
        ConsAhead(first, rest, k);
        AheadSize(rest, k);
        assert !Has(rest, j);
      } else {
        WithoutOther(rest, j, k);
        ConsAhead(first, rest, k);
        ConsAhead(first, Without(rest, j), k);
      }
    }
  }

  lemma {:induction false} DropLast<V>(l: seq<Slot<V>>, k: Key)
    requires Distinct(l) && Has(l, k)
    ensures var l' := l[..|l| - 1];
            if IndexOf(l, k) == |l| - 1 then !Has(l', k)
            else Has(l', k) && Lookup(l', k) == Lookup(l, k) && Ahead(l', k) == Ahead(l, k)
  {
    if l[0].key != k {
      DropLast(l[1..], k);
      assert l[..|l| - 1][1..] == l[1..][..|l| - 2];
    }
  }

  /** A list after key `j` was put in front: `k` is kept with `j` ahead of it too, or it was the last of a full list. */
  ghost predicate KeptOrEvicted<V>(l: seq<Slot<V>>, l': seq<Slot<V>>, capacity: nat, j: Key, k: Key)
    requires Has(l, k)
  {
    if Has(l', k) then Lookup(l', k) == Lookup(l, k) && Ahead(l', k) == Ahead(l, k) + {j}
    else |Ahead(l, k) + {j}| >= capacity
  }

  lemma PushRoom<V>(rest: seq<Slot<V>>, capacity: nat, slot: Slot<V>, k: Key)
    requires Has(rest, k) && slot.key != k
    ensures KeptOrEvicted(rest, [slot] + rest, capacity, slot.key, k)
  {
    ConsAhead(slot, rest, k);
  }

  lemma PushFull<V>(rest: seq<Slot<V>>, slot: Slot<V>, k: Key)
    requires Distinct(rest) && Has(rest, k) && slot.key != k && slot.key !in Ahead(rest, k)
    ensures KeptOrEvicted(rest, [slot] + rest[..|rest| - 1], |rest|, slot.key, k)
  {
    ConsAhead(slot, rest[..|rest| - 1], k);
    DropLast(rest, k);
    FullAhead(rest, slot.key, k);
  }

  lemma KeptBefore<V>(l: seq<Slot<V>>, l': seq<Slot<V>>, capacity: nat, j: Key, k: Key)
    requires Distinct(l) && j != k && Has(l, k) && Has(Without(l, j), k)
    requires KeptOrEvicted(Without(l, j), l', capacity, j, k)
    ensures KeptOrEvicted(l, l', capacity, j, k)
  {
    WithoutOther(l, j, k);
    assert Ahead(l, k) - {j} + {j} == Ahead(l, k) + {j};
  }

  /** Pushing another key either keeps `k`, adding one key ahead of it, or evicts `k` from the end of a full list. */
  lemma PushOther<V>(l: seq<Slot<V>>, capacity: nat, slot: Slot<V>, k: Key)
    requires Wf(l, capacity) && capacity >= 1 && slot.key != k && Has(l, k)
    ensures KeptOrEvicted(l, Pushed(l, capacity, slot), capacity, slot.key, k)
  {
    var rest := Without(l, slot.key);
    WithoutOther(l, slot.key, k);
    if |rest| < capacity {
      PushRoom(rest, capacity, slot, k);
    } else {
      WithoutWf(l, slot.key);
      PushFull(rest, slot, k);
    }
    KeptBefore(l, Pushed(l, capacity, slot), capacity, slot.key, k);
  }

  lemma FullAhead<V>(l: seq<Slot<V>>, j: Key, k: Key)
    requires Distinct(l) && Has(l, k) && j !in Ahead(l, k)
    ensures |Ahead(l, k) + {j}| == IndexOf(l, k) + 1
  {
    AheadSize(l, k);
  }

  lemma PushNew<V>(l: seq<Slot<V>>, capacity: nat, slot: Slot<V>)
    requires Wf(l, capacity) && capacity >= 1
    ensures var l' := Pushed(l, capacity, slot);
            Has(l', slot.key) && IndexOf(l', slot.key) == 0 && Lookup(l', slot.key) == slot
  {
  }

  lemma NotPushed<V>(l: seq<Slot<V>>, capacity: nat, slot: Slot<V>, k: Key)
    requires Wf(l, capacity) && capacity >= 1 && slot.key != k && !Has(l, k)
    ensures !Has(Pushed(l, capacity, slot), k)
  {
    WithoutWf(l, slot.key);
    WithoutOther(l, slot.key, k);
    HasIff(Without(l, slot.key), k);
    HasIff(Pushed(l, capacity, slot), k);
  }

  /** A live hit is a push of the slot found, in a list that has room. */
  lemma PromoteIsPush<V>(l: seq<Slot<V>>, capacity: nat, k: Key)
    requires Wf(l, capacity) && capacity >= 1 && Has(l, k)
    ensures Promoted(l, k) == Pushed(l, capacity, Lookup(l, k))
  {
    WithoutWf(l, k);
  }

  lemma {:induction false} HistoryAgrees<V>(cfg: Config, ops: seq<Op<V>>, k: Key)
    requires cfg.capacity >= 1 && Timed(ops)
    ensures Agrees(cfg, Run(cfg, ops), History(cfg, ops, k), k, Clock(ops))
  {
    if ops != [] {
      var before, op := ops[..|ops| - 1], ops[|ops| - 1];
      var l := Run(cfg, before);
      HistoryAgrees(cfg, before, k);
      RunWf(cfg, before);
      if Touches(cfg, l, op) {
        AgreesTouch(cfg, before, op, k);
      } else if op.Get? {
        WithoutWf(l, op.key);
        if op.key != k {
          WithoutOther(l, op.key, k);
        }
      }
    }
  }

  lemma AgreesTouch<V>(cfg: Config, before: seq<Op<V>>, op: Op<V>, k: Key)
    requires cfg.capacity >= 1 && Timed(before + [op]) && Wf(Run(cfg, before), cfg.capacity)
    requires Agrees(cfg, Run(cfg, before), History(cfg, before, k), k, Clock(before))
    requires Touches(cfg, Run(cfg, before), op)
    ensures Agrees(cfg, Run(cfg, before + [op]), History(cfg, before + [op], k), k, Clock(before + [op]))
  {
    var l, h := Run(cfg, before), History(cfg, before, k);
    assert (before + [op])[..|before|] == before;
    var slot := if op.Put? then Slot(op.key, op.value, op.stamp) else Lookup(l, op.key);
    if op.Get? {
      PromoteIsPush(l, cfg.capacity, op.key);
    }
    if op.key == k {
      PushNew(l, cfg.capacity, slot);
    } else if Has(l, k) {
      PushOther(l, cfg.capacity, slot, k);
      Counting.SubsetSize(Ahead(l, k) + {slot.key}, h.value.others + {slot.key});
    } else {
      NotPushed(l, cfg.capacity, slot, k);
      if h.Some? {
        Counting.SubsetSize(h.value.others, h.value.others + {op.key});
      }
    }
  }

  // ---------------------------------------------------------------- the theorems

  /** Completeness: few enough other keys since its last touch and a young enough put mean a hit on that put's value. */
  lemma RecentKeysHit<V>(cfg: Config, ops: seq<Op<V>>, k: Key, now: nat)
    requires cfg.capacity >= 1 && Timed(ops) && Clock(ops) <= now
    requires History(cfg, ops, k).Some?
    requires |History(cfg, ops, k).value.others| < cfg.capacity
    requires now - History(cfg, ops, k).value.stamp <= cfg.ttl
    ensures Hit(cfg, Run(cfg, ops), k, now) == Some(History(cfg, ops, k).value.value)
  {
    HistoryAgrees(cfg, ops, k);
  }

  /** No get of the run found an expired entry. */
  ghost predicate NothingExpired<V>(cfg: Config, ops: seq<Op<V>>)
    requires cfg.capacity >= 1
  {
    ops == [] ||
    (var before, op := ops[..|ops| - 1], ops[|ops| - 1];
     NothingExpired(cfg, before) && (op.Get? && Has(Run(cfg, before), op.key) ==> Live(cfg, Run(cfg, before), op.key, op.now)))
  }

  /** The list and the record of a key agree exactly. */
  ghost predicate Mirrors<V>(cfg: Config, l: seq<Slot<V>>, h: Option<Record<V>>, k: Key) {
    && (Has(l, k) ==> h.Some? && Ahead(l, k) == h.value.others)
    && (h.Some? && !Has(l, k) ==> |h.value.others| >= cfg.capacity)
  }

  lemma MirrorsTouch<V>(cfg: Config, before: seq<Op<V>>, op: Op<V>, k: Key)
    requires cfg.capacity >= 1 && Wf(Run(cfg, before), cfg.capacity)
    requires Mirrors(cfg, Run(cfg, before), History(cfg, before, k), k)
    requires Touches(cfg, Run(cfg, before), op)
    ensures Mirrors(cfg, Run(cfg, before + [op]), History(cfg, before + [op], k), k)
  {
    var l, h := Run(cfg, before), History(cfg, before, k);
    assert (before + [op])[..|before|] == before;
    var slot := if op.Put? then Slot(op.key, op.value, op.stamp) else Lookup(l, op.key);
    if op.Get? {
      PromoteIsPush(l, cfg.capacity, op.key);
    }
    if op.key == k {
      PushNew(l, cfg.capacity, slot);
    } else if Has(l, k) {
      PushOther(l, cfg.capacity, slot, k);
    } else {
      NotPushed(l, cfg.capacity, slot, k);
      if h.Some? {
        Counting.SubsetSize(h.value.others, h.value.others + {op.key});
      }
    }
  }

  lemma {:induction false} HistoryMirrors<V>(cfg: Config, ops: seq<Op<V>>, k: Key)
    requires cfg.capacity >= 1 && NothingExpired(cfg, ops)
    ensures Mirrors(cfg, Run(cfg, ops), History(cfg, ops, k), k)
  {
    if ops != [] {
      var before, op := ops[..|ops| - 1], ops[|ops| - 1];
      HistoryMirrors(cfg, before, k);
      RunWf(cfg, before);
      if Touches(cfg, Run(cfg, before), op) {
        assert ops == before + [op];
        MirrorsTouch(cfg, before, op, k);
      }
    }
  }

  /** Exactness: in a run where nothing expired, a key is cached iff it was put and fewer than capacity other keys were touched since its last touch. */
  lemma CachedIff<V>(cfg: Config, ops: seq<Op<V>>, k: Key)
    requires cfg.capacity >= 1 && NothingExpired(cfg, ops)
    ensures Has(Run(cfg, ops), k)
            <==> History(cfg, ops, k).Some? && |History(cfg, ops, k).value.others| < cfg.capacity
  {
    HistoryMirrors(cfg, ops, k);
    RunWf(cfg, ops);
    AheadSize(Run(cfg, ops), k);
  }

  // ---------------------------------------------------------------- presence in every run

  /**
   The other keys touched since the key's last touch and not found expired since, as long as there have always been fewer
   than capacity of them and the key itself was not found expired.
   */
  function Rivals<V>(cfg: Config, ops: seq<Op<V>>, k: Key): Option<set<Key>>
    requires cfg.capacity >= 1
  {
    if ops == [] then None
    else
      var before, op := ops[..|ops| - 1], ops[|ops| - 1];
      var r := Rivals(cfg, before, k);
      if Touches(cfg, Run(cfg, before), op) then
        if op.key == k then Some({})
        else if r.Some? && |r.value + {op.key}| < cfg.capacity then Some(r.value + {op.key})
        else None
      else if op.Put? || r.None? then r
      else if op.key == k then None
      else Some(r.value - {op.key})
  }

  ghost predicate Rivalled<V>(l: seq<Slot<V>>, r: Option<set<Key>>, k: Key) {
    Has(l, k) == r.Some? && (r.Some? ==> Ahead(l, k) == r.value)
  }

  lemma RivalsTouch<V>(cfg: Config, before: seq<Op<V>>, op: Op<V>, k: Key)
    requires cfg.capacity >= 1 && Wf(Run(cfg, before), cfg.capacity)
    requires Rivalled(Run(cfg, before), Rivals(cfg, before, k), k)
    requires Touches(cfg, Run(cfg, before), op)
    ensures Rivalled(Run(cfg, before + [op]), Rivals(cfg, before + [op], k), k)
  {
    var l := Run(cfg, before);
    assert (before + [op])[..|before|] == before;
    var slot := if op.Put? then Slot(op.key, op.value, op.stamp) else Lookup(l, op.key);
    if op.Get? {
      PromoteIsPush(l, cfg.capacity, op.key);
    }
    var l' := Pushed(l, cfg.capacity, slot);
    if op.key == k {
      PushNew(l, cfg.capacity, slot);
    } else if Has(l, k) {
      PushOther(l, cfg.capacity, slot, k);
      PushedWf(l, cfg.capacity, slot);
      AheadSize(l', k);
    } else {
      NotPushed(l, cfg.capacity, slot, k);
    }
  }

  lemma {:induction false} RivalsAreAhead<V>(cfg: Config, ops: seq<Op<V>>, k: Key)
    requires cfg.capacity >= 1
    ensures Rivalled(Run(cfg, ops), Rivals(cfg, ops, k), k)
  {
    if ops != [] {
      var before, op := ops[..|ops| - 1], ops[|ops| - 1];
      var l := Run(cfg, before);
      RivalsAreAhead(cfg, before, k);
      RunWf(cfg, before);
      assert ops == before + [op];
      if Touches(cfg, l, op) {
        RivalsTouch(cfg, before, op, k);
      } else if op.Get? {
        WithoutWf(l, op.key);
        if op.key != k {
          WithoutOther(l, op.key, k);
        }
      }
    }
  }

  /**
   Exactness in every run: a get hits iff the key's last effective put is at most the time to live ago and, since its last
   touch, it was not found expired and fewer than capacity other keys were ever touched and not yet found expired.
   */
  lemma HitIff<V>(cfg: Config, ops: seq<Op<V>>, k: Key, now: nat)
    requires cfg.capacity >= 1 && Timed(ops) && Clock(ops) <= now
    ensures Hit(cfg, Run(cfg, ops), k, now).Some?
            <==> Rivals(cfg, ops, k).Some? && History(cfg, ops, k).Some?
                 && now - History(cfg, ops, k).value.stamp <= cfg.ttl
  {
    RivalsAreAhead(cfg, ops, k);
    HistoryAgrees(cfg, ops, k);
  }

  /**
   A put of a cached key is swallowed exactly if it comes before the end of the dedup window of the last one that was not;
   any other put leaves its own value and time stamp with the key.
   */
  lemma PutReplacesIff<V>(cfg: Config, ops: seq<Op<V>>, k: Key, v: V, now: nat, stamp: nat)
    requires cfg.capacity >= 1 && Timed(ops) && Clock(ops) <= now <= stamp
    ensures var h, after := History(cfg, ops, k), Run(cfg, ops + [Put(k, v, now, stamp)]);
            && (Rivals(cfg, ops, k).Some? ==> h.Some?)
            && (if Rivals(cfg, ops, k).Some? && now < h.value.stamp + cfg.dedup
                then after == Run(cfg, ops)
                else Has(after, k) && Lookup(after, k) == Slot(k, v, stamp))
  {
    RivalsAreAhead(cfg, ops, k);
    HistoryAgrees(cfg, ops, k);
    RunWf(cfg, ops);
    assert (ops + [Put(k, v, now, stamp)])[..|ops|] == ops;
    PushNew(Run(cfg, ops), cfg.capacity, Slot(k, v, stamp));
  }

  /** Two slots. Key 0 is touched after key 1 but expires first; found expired it leaves its slot to key 2. */
  ghost function RoomyRun<V>(v: V, ttl: nat): seq<Op<V>> {
    [Put(0, v, 0, 0)] + [Put(1, v, 1, 1)] + [Get(0, 1)] + [Get(0, ttl + 1)] + [Put(2, v, ttl + 1, ttl + 1)]
  }

  /** The list, the keys touched since key 1 was, and the clock. */
  ghost predicate Stands<V>(cfg: Config, ops: seq<Op<V>>, l: seq<Slot<V>>, others: Option<set<Key>>, clock: nat)
    requires cfg.capacity >= 1
  {
    && Timed(ops) && Clock(ops) == clock && Run(cfg, ops) == l
    && History(cfg, ops, 1).Some? == others.Some?
    && (others.Some? ==> History(cfg, ops, 1).value.others == others.value)
  }

  lemma StandsStep<V>(cfg: Config, ops: seq<Op<V>>, l: seq<Slot<V>>, others: Option<set<Key>>, clock: nat, op: Op<V>)
    requires cfg.capacity >= 1 && Stands(cfg, ops, l, others, clock) && clock <= op.now <= End(op)
    requires op.Put? || op.key != 1
    ensures Stands(cfg, ops + [op], Apply(cfg, l, op),
                   if !Touches(cfg, l, op) then others
                   else if op.key == 1 then Some({})
                   else if others.Some? then Some(others.value + {op.key})
                   else None,
                   End(op))
  {
    assert (ops + [op])[..|ops|] == ops;
  }

  lemma SecondGoes<V>(a: Slot<V>, b: Slot<V>)
    requires a.key != b.key
    ensures IndexOf([a], b.key) == 1 && Without([a], b.key) == [a]
    ensures IndexOf([a, b], b.key) == 1 && Without([a, b], b.key) == [a]
  {
    assert [a][1..] == [] && [a, b][1..] == [b];
  }

  lemma RoomyStart<V>(cfg: Config, v: V)
    requires cfg.capacity == 2
    ensures Stands(cfg, [Put(0, v, 0, 0)] + [Put(1, v, 1, 1)], [Slot(1, v, 1), Slot(0, v, 0)], Some({}), 1)
  {
    var s0, s1 := Slot(0, v, 0), Slot(1, v, 1);
    var b: seq<Op<V>> := [Put(0, v, 0, 0)];
    StandsStep(cfg, [], [], None, 0, b[0]);
    assert [] + b == b;
    SecondGoes(s0, s1);
    StandsStep(cfg, b, [s0], None, 0, Put(1, v, 1, 1));
  }

  lemma RoomyGets<V>(cfg: Config, ops: seq<Op<V>>, v: V)
    requires cfg.capacity == 2 && cfg.ttl >= 1 && Stands(cfg, ops, [Slot(1, v, 1), Slot(0, v, 0)], Some({}), 1)
    ensures Stands(cfg, ops + [Get(0, 1)] + [Get(0, cfg.ttl + 1)], [Slot(1, v, 1)], Some({0}), cfg.ttl + 1)
  {
    var s0, s1 := Slot(0, v, 0), Slot(1, v, 1);
    SecondGoes(s1, s0);
    StandsStep(cfg, ops, [s1, s0], Some({}), 1, Get(0, 1));
    assert Stands(cfg, ops + [Get(0, 1)], [s0, s1], Some({0}), 1);
    StandsStep(cfg, ops + [Get(0, 1)], [s0, s1], Some({0}), 1, Get(0, cfg.ttl + 1));
  }

  /** Once something was found expired, a key can hit although capacity many other keys were touched since its last touch. */
  lemma ExpiryMakesRoom<V>(cfg: Config, v: V)
    requires cfg.capacity == 2 && cfg.ttl >= 1
    ensures var ops := RoomyRun(v, cfg.ttl);
            && Timed(ops) && Hit(cfg, Run(cfg, ops), 1, cfg.ttl + 1) == Some(v)
            && History(cfg, ops, 1).Some? && |History(cfg, ops, 1).value.others| == cfg.capacity
  {
    var t := cfg.ttl + 1;
    var s1, s2 := Slot(1, v, 1), Slot(2, v, t);
    var c: seq<Op<V>> := [Put(0, v, 0, 0)] + [Put(1, v, 1, 1)];
    var e := c + [Get(0, 1)] + [Get(0, t)];
    RoomyStart(cfg, v);
    RoomyGets(cfg, c, v);
    SecondGoes(s1, s2);
    StandsStep(cfg, e, [s1], Some({0}), t, Put(2, v, t, t));
    SecondGoes(s2, s1);
    assert Stands(cfg, e + [Put(2, v, t, t)], [s2, s1], Some({0, 2}), t);
  }

  ghost predicate EffectivePutAt<V>(cfg: Config, ops: seq<Op<V>>, i: nat, k: Key)
    requires cfg.capacity >= 1
  {
    i < |ops| && ops[i].Put? && ops[i].key == k && Effective(cfg, Run(cfg, ops[..i]), k, ops[i].now)
  }

  lemma EffectivePutPrefix<V>(cfg: Config, ops: seq<Op<V>>, n: nat, j: nat, k: Key)
    requires cfg.capacity >= 1 && j < n <= |ops|
    ensures EffectivePutAt(cfg, ops[..n], j, k) == EffectivePutAt(cfg, ops, j, k)
  {
    assert ops[..n][..j] == ops[..j];
  }

  lemma HistoryStep<V>(cfg: Config, ops: seq<Op<V>>, k: Key)
    requires cfg.capacity >= 1 && ops != [] && History(cfg, ops, k).Some?
    ensures var n := |ops| - 1;
            var h, op := History(cfg, ops, k).value, ops[n];
            if EffectivePutAt(cfg, ops, n, k) then op.value == h.value && op.stamp == h.stamp
            else History(cfg, ops[..n], k).Some?
                 && History(cfg, ops[..n], k).value.value == h.value && History(cfg, ops[..n], k).value.stamp == h.stamp
  {
  }

  /** The record's value and stamp are those of the last effective put of the key. */
  lemma {:induction false} HistoryIsLastPut<V>(cfg: Config, ops: seq<Op<V>>, k: Key) returns (i: nat)
    requires cfg.capacity >= 1 && History(cfg, ops, k).Some?
    ensures EffectivePutAt(cfg, ops, i, k)
    ensures var h := History(cfg, ops, k).value; ops[i].value == h.value && ops[i].stamp == h.stamp
    ensures forall j :: i < j < |ops| ==> !EffectivePutAt(cfg, ops, j, k)
  {
    var n := |ops| - 1;
    HistoryStep(cfg, ops, k);
    if EffectivePutAt(cfg, ops, n, k) {
      i := n;
    } else {
      var before := ops[..n];
      i := HistoryIsLastPut(cfg, before, k);
      EffectivePutPrefix(cfg, ops, n, i, k);
      forall j | i < j < |ops| ensures !EffectivePutAt(cfg, ops, j, k) {
        if j < n {
          EffectivePutPrefix(cfg, ops, n, j, k);
        }
      }
    }
  }

  /** Freshness: a hit returns the value of the key's last effective put, made at most `ttl` ago whatever was hit since. */
  lemma HitsAreFresh<V>(cfg: Config, ops: seq<Op<V>>, k: Key, now: nat) returns (i: nat)
    requires cfg.capacity >= 1 && Timed(ops) && Clock(ops) <= now
    requires Hit(cfg, Run(cfg, ops), k, now).Some?
    ensures EffectivePutAt(cfg, ops, i, k)
    ensures Hit(cfg, Run(cfg, ops), k, now) == Some(ops[i].value) && now - ops[i].stamp <= cfg.ttl
    ensures forall j :: i < j < |ops| ==> !EffectivePutAt(cfg, ops, j, k)
  {
    HistoryAgrees(cfg, ops, k);
    i := HistoryIsLastPut(cfg, ops, k);
  }

  /** Stability: while a key stays in the cache, two effective writes of it are at least the dedup window apart. */
  lemma {:induction false} WritesAreSpaced<V>(cfg: Config, ops: seq<Op<V>>, i: nat, j: nat, k: Key)
    requires cfg.capacity >= 1 && Timed(ops)
    requires i < j && EffectivePutAt(cfg, ops, i, k) && EffectivePutAt(cfg, ops, j, k)
    requires forall m :: i < m <= j ==> Has(Run(cfg, ops[..m]), k)
    ensures ops[j].now >= ops[i].stamp + cfg.dedup
  {
    InsertedAfter(cfg, ops, i, j, k);
    StampsIncrease(ops, i, j);
  }

  lemma {:induction false} TimedPrefix<V>(ops: seq<Op<V>>, n: nat)
    requires Timed(ops) && n <= |ops|
    ensures Timed(ops[..n])
    ensures Clock(ops[..n]) <= Clock(ops)
  {
    if n < |ops| {
      TimedPrefix(ops[..|ops| - 1], n);
      assert ops[..|ops| - 1][..n] == ops[..n];
    } else {
      assert ops[..n] == ops;
    }
  }

  /** One operation on a present key leaves it with the same insertion time, or with the operation's own stamp. */
  lemma InsertedStep<V>(cfg: Config, l: seq<Slot<V>>, op: Op<V>, k: Key)
    requires cfg.capacity >= 1 && Wf(l, cfg.capacity) && Has(l, k) && Has(Apply(cfg, l, op), k)
    ensures var s := Lookup(Apply(cfg, l, op), k).inserted;
            s == Lookup(l, k).inserted || (op.Put? && op.key == k && s == op.stamp)
  {
    WithoutWf(l, op.key);
    if op.key != k {
      WithoutOther(l, op.key, k);
      if op.Put? {
        PushOther(l, cfg.capacity, Slot(op.key, op.value, op.stamp), k);
      } else if Has(l, op.key) {
        PromoteIsPush(l, cfg.capacity, op.key);
        PushOther(l, cfg.capacity, Lookup(l, op.key), k);
      }
    } else if op.Put? {
      PushNew(l, cfg.capacity, Slot(k, op.value, op.stamp));
    }
  }

  lemma RunStep<V>(cfg: Config, ops: seq<Op<V>>, n: nat)
    requires cfg.capacity >= 1 && n < |ops|
    ensures Run(cfg, ops[..n + 1]) == Apply(cfg, Run(cfg, ops[..n]), ops[n])
    ensures Wf(Run(cfg, ops[..n]), cfg.capacity)
  {
    assert ops[..n + 1][..n] == ops[..n];
    RunWf(cfg, ops[..n]);
  }

  lemma PutStamps<V>(cfg: Config, l: seq<Slot<V>>, op: Op<V>)
    requires cfg.capacity >= 1 && Wf(l, cfg.capacity) && op.Put? && Effective(cfg, l, op.key, op.now)
    ensures Has(Apply(cfg, l, op), op.key) && Lookup(Apply(cfg, l, op), op.key).inserted == op.stamp
  {
    PushNew(l, cfg.capacity, Slot(op.key, op.value, op.stamp));
  }

  lemma {:induction false} InsertedAfter<V>(cfg: Config, ops: seq<Op<V>>, i: nat, m: nat, k: Key)
    requires cfg.capacity >= 1 && Timed(ops) && i < m <= |ops| && EffectivePutAt(cfg, ops, i, k)
    requires forall n :: i < n <= m ==> Has(Run(cfg, ops[..n]), k)
    ensures Lookup(Run(cfg, ops[..m]), k).inserted >= ops[i].stamp
    decreases m
  {
    var p := m - 1;
    RunStep(cfg, ops, p);
    if p == i {
      PutStamps(cfg, Run(cfg, ops[..p]), ops[p]);
    } else {
      InsertedAfter(cfg, ops, i, p, k);
      InsertedStep(cfg, Run(cfg, ops[..p]), ops[p], k);
      StampsIncrease(ops, i, p);
    }
  }

  lemma {:induction false} StampsIncrease<V>(ops: seq<Op<V>>, i: nat, j: nat)
    requires Timed(ops) && i < j < |ops|
    ensures End(ops[i]) <= ops[j].now <= End(ops[j])
  {
    TimedPrefix(ops, j + 1);
    TimedPrefix(ops, j);
    assert ops[..j + 1][..j] == ops[..j];
    TimedPrefix(ops[..j], i + 1);
    assert ops[..j][..i + 1] == ops[..i + 1];
  }

  // ---------------------------------------------------------------- get right after put

  /** A put followed at once by a get of the same key hits, whatever came before. */
  ghost predicate PutThenGetHits<V(!new)>(cfg: Config)
    requires cfg.capacity >= 1
  {
    forall ops: seq<Op<V>>, k: Key, v: V, now: nat, stamp: nat ::
      Timed(ops) && Clock(ops) <= now <= stamp ==> PutThenHits(cfg, Run(cfg, ops), k, v, now, stamp)
  }

  /** A swallowed put reads the clock only at `now`; an effective one also at `stamp`. */
  predicate PutThenHits<V>(cfg: Config, l: seq<Slot<V>>, k: Key, v: V, now: nat, stamp: nat)
    requires cfg.capacity >= 1
  {
    Hit(cfg, AfterPut(cfg, l, k, v, now, stamp), k, if Effective(cfg, l, k, now) then stamp else now).Some?
  }

  /** Exactly the configurations where the dedup window cannot swallow a put onto an expired entry. */
  lemma PutThenGetHitsIff<V(!new)>(cfg: Config, v: V)
    requires cfg.capacity >= 1
    ensures PutThenGetHits<V>(cfg) <==> cfg.dedup <= cfg.ttl + 1
  {
    if cfg.dedup <= cfg.ttl + 1 {
      forall ops: seq<Op<V>>, k: Key, w: V, now: nat, stamp: nat | Timed(ops) && Clock(ops) <= now <= stamp
        ensures PutThenHits(cfg, Run(cfg, ops), k, w, now, stamp)
      {
        RunWf(cfg, ops);
        if Effective(cfg, Run(cfg, ops), k, now) {
          PushNew(Run(cfg, ops), cfg.capacity, Slot(k, w, stamp));
        }
      }
    } else {
      var first := Put(0, v, 0, 0);
      var ops := [first];
      assert Run(cfg, ops) == [Slot(0, v, 0)] by {
        assert ops[..0] == [];
      }
      assert Timed(ops[..0]) && Timed(ops);
      assert !PutThenHits(cfg, Run(cfg, ops), 0, v, cfg.ttl + 1, cfg.ttl + 1);
    }
  }
}
