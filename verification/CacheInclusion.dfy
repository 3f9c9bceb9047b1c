/**
 LRU inclusion: a larger cache run on the same operations holds everything a smaller one holds. Lazy expiry makes
 the smaller list a subsequence and not a prefix of the larger one, and a dedup window breaks the property.
 */
module CacheInclusion {
  import opened Prelude
  import opened Cache
  import opened CacheHistory

  ghost predicate Sub<V>(a: seq<Slot<V>>, b: seq<Slot<V>>) {
    a == [] || (b != [] && if a[0] == b[0] then Sub(a[1..], b[1..]) else Sub(a, b[1..]))
  }

  lemma {:induction false} SubTail<V>(a: seq<Slot<V>>, b: seq<Slot<V>>)
    requires Sub(a, b) && a != []
    ensures Sub(a[1..], b)
    decreases |b|
  {
    if a[0] == b[0] {
      if a[1..] != [] {
        if a[1] == b[0] {
          SubTail(a[1..], b[1..]);
          assert a[1..][1..] == a[2..];
        }
      }
    } else {
      SubTail(a, b[1..]);
      if a[1..] != [] && a[1] == b[0] {
        SubTail(a[1..], b[1..]);
      }
    }
  }

  lemma {:induction false} SubSize<V>(a: seq<Slot<V>>, b: seq<Slot<V>>)
    requires Sub(a, b)
    ensures |a| <= |b|
    ensures forall s :: s in a ==> s in b
  {
    if a != [] {
      var rest := if a[0] == b[0] then a[1..] else a;
      SubSize(rest, b[1..]);
      assert a == if a[0] == b[0] then [a[0]] + rest else rest;
    }
  }

  lemma SubHas<V>(a: seq<Slot<V>>, b: seq<Slot<V>>, k: Key)
    requires Sub(a, b) && Has(a, k)
    ensures Has(b, k)
  {
    SubSize(a, b);
    HasIff(b, k);
    assert Lookup(a, k) in b;
  }

  /** A key of the subsequence has the same slot in the whole list. */
  lemma SubLookup<V>(a: seq<Slot<V>>, b: seq<Slot<V>>, k: Key)
    requires Sub(a, b) && Distinct(b) && Has(a, k)
    ensures Has(b, k) && Lookup(b, k) == Lookup(a, k)
  {
    SubSize(a, b);
    var i :| 0 <= i < |b| && b[i] == Lookup(a, k);
    IndexIs(b, i);
  }

  lemma {:induction false} SubWithout<V>(a: seq<Slot<V>>, b: seq<Slot<V>>, k: Key)
    requires Sub(a, b) && Distinct(a) && Distinct(b)
    ensures Sub(Without(a, k), Without(b, k))
    decreases |b|
  {
    if a != [] {
      if b[0].key == k {
        if a[0] != b[0] {
          if Has(a, k) {
            SubHas(a, b[1..], k);
          }
        }
      } else {
        if a[0] == b[0] {
          SubWithout(a[1..], b[1..], k);
        } else {
          SubWithout(a, b[1..], k);
          if a[0].key == k && Without(a, k) != [] {
            SubPrefixed(Without(a, k), b[0], Without(b[1..], k));
          } else if a[0].key != k {
            assert Without(a, k)[0] == a[0];
          }
        }
      }
    }
  }

  lemma SubPrefixed<V>(a: seq<Slot<V>>, x: Slot<V>, b: seq<Slot<V>>)
    requires Sub(a, b)
    ensures Sub(a, [x] + b)
  {
    if a != [] && a[0] == x {
      SubTail(a, b);
      assert ([x] + b)[1..] == b;
    }
  }

  /** Dropping the last slot of both, or of the larger list when the smaller one is not affected. */
  lemma {:induction false} SubDropLast<V>(a: seq<Slot<V>>, b: seq<Slot<V>>)
    requires Sub(a, b) && a != [] && Distinct(b)
    ensures Sub(a[..|a| - 1], b[..|b| - 1])
  {
    SubSize(a, b);
    if |b| > 1 {
      var a', b' := a[..|a| - 1], b[..|b| - 1];
      assert b'[1..] == b[1..][..|b| - 2];
      if a[0] == b[0] {
        if |a| > 1 {
          SubDropLast(a[1..], b[1..]);
          assert a'[1..] == a[1..][..|a| - 2];
        }
      } else {
        SubDropLast(a, b[1..]);
      }
    }
  }

  lemma {:induction false} SubDropSmaller<V>(a: seq<Slot<V>>, b: seq<Slot<V>>)
    requires Sub(a, b) && a != []
    ensures Sub(a[..|a| - 1], b)
    decreases |b|
  {
    var a' := a[..|a| - 1];
    if a' != [] {
      if a[0] == b[0] {
        SubDropSmaller(a[1..], b[1..]);
        assert a'[1..] == a[1..][..|a| - 2];
      } else {
        SubDropSmaller(a, b[1..]);
      }
    }
  }

  /** The relation kept by every operation: subsequence, and sizes no further apart than the capacities. */
  ghost predicate Included<V>(s: seq<Slot<V>>, b: seq<Slot<V>>, small: nat, big: nat) {
    Wf(s, small) && Wf(b, big) && Sub(s, b) && |b| - |s| <= big - small
  }

  lemma PushIncluded<V>(s: seq<Slot<V>>, b: seq<Slot<V>>, small: nat, big: nat, slot: Slot<V>)
    requires 1 <= small <= big && Included(s, b, small, big)
    ensures Included(Pushed(s, small, slot), Pushed(b, big, slot), small, big)
  {
    PushedWf(s, small, slot);
    PushedWf(b, big, slot);
    SubWithout(s, b, slot.key);
    if Has(s, slot.key) {
      SubLookup(s, b, slot.key);
    }
    var s1, b1 := Without(s, slot.key), Without(b, slot.key);
    var s2 := if |s1| < small then s1 else s1[..small - 1];
    var b2 := if |b1| < big then b1 else b1[..big - 1];
    WithoutWf(b, slot.key);
    if |s1| == small {
      if |b1| == big {
        SubDropLast(s1, b1);
      } else {
        SubDropSmaller(s1, b1);
      }
    }
    assert Sub(s2, b2);
    assert Pushed(s, small, slot)[1..] == s2 && Pushed(b, big, slot)[1..] == b2;
  }

  lemma GetIncluded<V>(cs: Config, cb: Config, s: seq<Slot<V>>, b: seq<Slot<V>>, k: Key, now: nat)
    requires 1 <= cs.capacity <= cb.capacity && cs.ttl == cb.ttl
    requires Included(s, b, cs.capacity, cb.capacity)
    ensures Included(AfterGet(cs, s, k, now), AfterGet(cb, b, k, now), cs.capacity, cb.capacity)
  {
    WithoutWf(s, k);
    WithoutWf(b, k);
    SubWithout(s, b, k);
    if Has(s, k) {
      SubLookup(s, b, k);
    }
    if Live(cb, b, k, now) {
      PromotedWf(b, cb.capacity, k);
      if Has(s, k) {
        PromotedWf(s, cs.capacity, k);
        assert Promoted(s, k)[1..] == Without(s, k) && Promoted(b, k)[1..] == Without(b, k);
      } else {
        SubPrefixed(Without(s, k), Lookup(b, k), Without(b, k));
      }
    }
  }

  ghost predicate SameButSize(cs: Config, cb: Config) {
    1 <= cs.capacity <= cb.capacity && cs.ttl == cb.ttl && cs.dedup == cb.dedup
  }

  /** With no dedup window the smaller cache's list stays a subsequence of the larger one's, slot for slot. */
  lemma {:induction false} Inclusion<V>(cs: Config, cb: Config, ops: seq<Op<V>>)
    requires SameButSize(cs, cb) && cs.dedup == 0
    ensures Included(Run(cs, ops), Run(cb, ops), cs.capacity, cb.capacity)
  {
    if ops != [] {
      var before, op := ops[..|ops| - 1], ops[|ops| - 1];
      Inclusion(cs, cb, before);
      if op.Get? {
        GetIncluded(cs, cb, Run(cs, before), Run(cb, before), op.key, op.now);
      } else {
        PushIncluded(Run(cs, before), Run(cb, before), cs.capacity, cb.capacity, Slot(op.key, op.value, op.stamp));
      }
    }
  }

  /** Whatever the smaller cache would return after a run, the larger one returns too. */
  ghost predicate HitsIncluded<V(!new)>(cs: Config, cb: Config)
    requires SameButSize(cs, cb)
  {
    forall ops: seq<Op<V>>, k: Key, now: nat :: Timed(ops) && Clock(ops) <= now ==>
      HitIncluded(cs, cb, ops, k, now)
  }

  ghost predicate HitIncluded<V>(cs: Config, cb: Config, ops: seq<Op<V>>, k: Key, now: nat)
    requires SameButSize(cs, cb)
  {
    Hit(cs, Run(cs, ops), k, now).Some? ==> Hit(cb, Run(cb, ops), k, now) == Hit(cs, Run(cs, ops), k, now)
  }

  /** Key 0, then keys 1 to `n`, all put at time 0. */
  ghost function Flood<V>(v: V, n: nat): seq<Op<V>> {
    if n == 0 then [Put(0, v, 0, 0)] else Flood(v, n - 1) + [Put(n, v, 0, 0)]
  }

  ghost predicate Descending<V>(l: seq<Slot<V>>, v: V, n: nat) {
    |l| == n + 1 && forall i :: 0 <= i <= n ==> l[i] == Slot(n - i, v, 0)
  }

  lemma {:induction false} FloodFits<V>(cfg: Config, v: V, n: nat)
    requires n < cfg.capacity
    ensures Timed(Flood(v, n)) && Clock(Flood(v, n)) == 0
    ensures Descending(Run(cfg, Flood(v, n)), v, n)
  {
    var ops := Flood(v, n);
    if n == 0 {
      assert ops[..0] == [] && Timed(ops[..0]);
    } else {
      FloodFits(cfg, v, n - 1);
      assert ops[..|ops| - 1] == Flood(v, n - 1);
      DescendingStep(cfg, Run(cfg, Flood(v, n - 1)), v, n);
    }
  }

  lemma DescendingStep<V>(cfg: Config, l: seq<Slot<V>>, v: V, n: nat)
    requires 0 < n < cfg.capacity && Descending(l, v, n - 1)
    ensures Descending(AfterPut(cfg, l, n, v, 0, 0), v, n)
  {
    assert !Has(l, n);
    assert AfterPut(cfg, l, n, v, 0, 0) == [Slot(n, v, 0)] + l;
  }

  lemma FloodEvicts<V>(cfg: Config, v: V)
    requires cfg.capacity >= 1
    ensures !Has(Run(cfg, Flood(v, cfg.capacity)), 0)
  {
    var n := cfg.capacity;
    FloodFits(cfg, v, n - 1);
    var ops, l := Flood(v, n), Run(cfg, Flood(v, n - 1));
    assert ops[..|ops| - 1] == Flood(v, n - 1);
    assert !Has(l, n);
    assert Run(cfg, ops) == [Slot(n, v, 0)] + l[..n - 1];
  }

  /** Inclusion of hits holds for every run exactly when there is no dedup window or the capacities are equal. */
  lemma HitsIncludedIff<V(!new)>(cs: Config, cb: Config, v: V, w: V)
    requires SameButSize(cs, cb) && v != w
    ensures HitsIncluded<V>(cs, cb) <==> cs.dedup == 0 || cs.capacity == cb.capacity
  {
    if cs.capacity == cb.capacity {
      assert cs == cb;
    } else if cs.dedup == 0 {
      forall ops: seq<Op<V>>, k: Key, now: nat | Timed(ops) && Clock(ops) <= now
        ensures HitIncluded(cs, cb, ops, k, now)
      {
        Inclusion(cs, cb, ops);
        if Has(Run(cs, ops), k) {
          SubLookup(Run(cs, ops), Run(cb, ops), k);
        }
      }
    } else {
      NotIncluded(cs, cb, v, w);
      assert !HitIncluded(cs, cb, Flood(v, cs.capacity) + [Put(0, w, 0, 0)], 0, 0);
    }
  }

  /** The smaller cache has evicted key 0 and stores its new value, which the larger one takes for a duplicate. */
  lemma NotIncluded<V>(cs: Config, cb: Config, v: V, w: V)
    requires SameButSize(cs, cb) && cs.capacity < cb.capacity && cs.dedup > 0
    ensures var ops := Flood(v, cs.capacity) + [Put(0, w, 0, 0)];
            Timed(ops) && Clock(ops) == 0
            && Hit(cs, Run(cs, ops), 0, 0) == Some(w) && Hit(cb, Run(cb, ops), 0, 0) == Some(v)
  {
    var flood := Flood(v, cs.capacity);
    var ops := flood + [Put(0, w, 0, 0)];
    assert ops[..|ops| - 1] == flood;
    FloodEvicts(cs, v);
    FloodFits(cb, v, cs.capacity);
    RunWf(cs, flood);
    PushNew(Run(cs, flood), cs.capacity, Slot(0, w, 0));
    var b := Run(cb, flood);
    RunWf(cb, flood);
    IndexIs(b, cs.capacity);
  }
}
