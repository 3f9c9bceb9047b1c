/**
 The response cache: an LRU list with a time to live, a dedup window and lazy expiry. The list is kept most
 recent first with distinct keys, which is how the `lru` crate behaves. Keys are the 64-bit request hashes,
 taken as opaque numbers.
 */
module Cache {
  import opened Prelude

  type Key = nat

  datatype Slot<V> = Slot(key: Key, value: V, inserted: nat)

  datatype Config = Config(capacity: nat, ttl: nat, dedup: nat)

  // ---------------------------------------------------------------- recency lists

  /** Position of `k` in the list, or the list's length. */
  function IndexOf<V>(l: seq<Slot<V>>, k: Key): (i: nat)
    ensures i <= |l|
    ensures i < |l| ==> l[i].key == k
  {
    if l == [] || l[0].key == k then 0 else 1 + IndexOf(l[1..], k)
  }

  lemma {:induction false} IndexIsFirst<V>(l: seq<Slot<V>>, k: Key)
    ensures forall j :: 0 <= j < IndexOf(l, k) ==> l[j].key != k
  {
    if l != [] && l[0].key != k {
      IndexIsFirst(l[1..], k);
      assert l == [l[0]] + l[1..];
    }
  }

  predicate Has<V>(l: seq<Slot<V>>, k: Key) {
    IndexOf(l, k) < |l|
  }

  function Lookup<V>(l: seq<Slot<V>>, k: Key): Slot<V>
    requires Has(l, k)
  {
    l[IndexOf(l, k)]
  }

  /** No key occurs twice. */
  ghost predicate Distinct<V>(l: seq<Slot<V>>) {
    l == [] || (!Has(l[1..], l[0].key) && Distinct(l[1..]))
  }

  ghost predicate Wf<V>(l: seq<Slot<V>>, capacity: nat) {
    Distinct(l) && |l| <= capacity
  }

  function Without<V>(l: seq<Slot<V>>, k: Key): (r: seq<Slot<V>>)
    ensures |r| == |l| - (if Has(l, k) then 1 else 0)
    ensures !Has(l, k) ==> r == l
    ensures forall s :: s in r ==> s in l
  {
    if l == [] then []
    else if l[0].key == k then l[1..]
    else [l[0]] + Without(l[1..], k)
  }

  /** `LruCache::get`: the slot found moves to the front. */
  function Promoted<V>(l: seq<Slot<V>>, k: Key): seq<Slot<V>>
    requires Has(l, k)
  {
    [Lookup(l, k)] + Without(l, k)
  }

  /** `LruCache::put`: replace in place of recency, or evict the least recent slot of a full list. */
  function Pushed<V>(l: seq<Slot<V>>, capacity: nat, slot: Slot<V>): seq<Slot<V>>
    requires capacity >= 1
  {
    var rest := Without(l, slot.key);
    [slot] + (if |rest| < capacity then rest else rest[..capacity - 1])
  }

  lemma HasIff<V>(l: seq<Slot<V>>, k: Key)
    ensures Has(l, k) <==> exists i :: 0 <= i < |l| && l[i].key == k
  {
    IndexIsFirst(l, k);
  }

  lemma {:induction false} IndexIs<V>(l: seq<Slot<V>>, i: nat)
    requires Distinct(l) && i < |l|
    ensures Has(l, l[i].key) && IndexOf(l, l[i].key) == i
  {
    if i > 0 {
      assert l[i] == l[1..][i - 1];
      IndexIs(l[1..], i - 1);
    }
  }

  lemma {:induction false} WithoutHas<V>(l: seq<Slot<V>>, k: Key, j: Key)
    requires Has(Without(l, k), j)
    ensures Has(l, j)
  {
    if l[0].key != k && l[0].key != j {
      assert Without(l, k)[1..] == Without(l[1..], k);
      WithoutHas(l[1..], k, j);
    }
  }

  lemma {:induction false} WithoutWf<V>(l: seq<Slot<V>>, k: Key)
    requires Distinct(l)
    ensures Distinct(Without(l, k)) && !Has(Without(l, k), k)
  {
    if l != [] && l[0].key != k {
      WithoutWf(l[1..], k);
      assert Without(l, k)[1..] == Without(l[1..], k);
      if Has(Without(l[1..], k), l[0].key) {
        WithoutHas(l[1..], k, l[0].key);
      }
    }
  }

  lemma {:induction false} PrefixHas<V>(l: seq<Slot<V>>, n: nat, k: Key)
    requires n <= |l| && Has(l[..n], k)
    ensures Has(l, k)
  {
    if l[0].key != k {
      assert l[..n][1..] == l[1..][..n - 1];
      PrefixHas(l[1..], n - 1, k);
    }
  }

  lemma {:induction false} PrefixDistinct<V>(l: seq<Slot<V>>, n: nat)
    requires n <= |l| && Distinct(l)
    ensures Distinct(l[..n])
  {
    if n > 0 {
      assert l[..n][1..] == l[1..][..n - 1];
      PrefixDistinct(l[1..], n - 1);
      if Has(l[1..][..n - 1], l[0].key) {
        PrefixHas(l[1..], n - 1, l[0].key);
      }
    }
  }

  lemma ConsWf<V>(slot: Slot<V>, l: seq<Slot<V>>, n: nat)
    requires Distinct(l) && !Has(l, slot.key) && n <= |l|
    ensures Distinct([slot] + l[..n])
  {
    PrefixDistinct(l, n);
    assert ([slot] + l[..n])[1..] == l[..n];
    if Has(l[..n], slot.key) {
      PrefixHas(l, n, slot.key);
    }
  }

  lemma PushedWf<V>(l: seq<Slot<V>>, capacity: nat, slot: Slot<V>)
    requires Wf(l, capacity) && capacity >= 1
    ensures Wf(Pushed(l, capacity, slot), capacity)
  {
    var rest := Without(l, slot.key);
    WithoutWf(l, slot.key);
    ConsWf(slot, rest, if |rest| < capacity then |rest| else capacity - 1);
    assert rest[..|rest|] == rest;
  }

  lemma PromotedWf<V>(l: seq<Slot<V>>, capacity: nat, k: Key)
    requires Wf(l, capacity) && Has(l, k)
    ensures Wf(Promoted(l, k), capacity)
  {
    var rest := Without(l, k);
    WithoutWf(l, k);
    ConsWf(Lookup(l, k), rest, |rest|);
    assert rest[..|rest|] == rest;
  }

  // ---------------------------------------------------------------- the two operations

  predicate Live<V>(cfg: Config, l: seq<Slot<V>>, k: Key, now: nat) {
    Has(l, k) && Elapsed(now, Lookup(l, k).inserted) <= cfg.ttl
  }

  /** Whether a `put` is not swallowed by the dedup window. */
  predicate Effective<V>(cfg: Config, l: seq<Slot<V>>, k: Key, now: nat) {
    Has(l, k) ==> Elapsed(now, Lookup(l, k).inserted) >= cfg.dedup
  }

  function Hit<V>(cfg: Config, l: seq<Slot<V>>, k: Key, now: nat): Option<V> {
    if Live(cfg, l, k, now) then Some(Lookup(l, k).value) else None
  }

  function AfterGet<V>(cfg: Config, l: seq<Slot<V>>, k: Key, now: nat): seq<Slot<V>> {
    if Live(cfg, l, k, now) then Promoted(l, k) else Without(l, k)
  }

  /** `now` is the clock reading of the dedup test and `stamp` the later one stored with the entry. */
  function AfterPut<V>(cfg: Config, l: seq<Slot<V>>, k: Key, v: V, now: nat, stamp: nat): seq<Slot<V>>
    requires cfg.capacity >= 1
  {
    if Effective(cfg, l, k, now) then Pushed(l, cfg.capacity, Slot(k, v, stamp)) else l
  }

  /** The operations of the `lru` crate that the cache uses. */
  class LruCache<V> {
    var slots: seq<Slot<V>>
    const capacity: nat

    ghost predicate Valid()
      reads this
    {
      capacity >= 1 && Wf(slots, capacity)
    }

    constructor (capacity: nat)
      requires capacity >= 1
      ensures Valid() && slots == [] && this.capacity == capacity
    {
      this.capacity := capacity;
      slots := [];
    }

    method Peek(k: Key) returns (r: Option<Slot<V>>)
      ensures r == if Has(slots, k) then Some(Lookup(slots, k)) else None
    {
      IndexIsFirst(slots, k);
      var i := 0;
      while i < |slots|
        invariant i <= IndexOf(slots, k)
      {
        if slots[i].key == k {
          return Some(slots[i]);
        }
        i := i + 1;
      }
      return None;
    }

    method Get(k: Key) returns (r: Option<Slot<V>>)
      requires Valid()
      modifies this
      ensures Valid()
      ensures Has(old(slots), k) ==> r == Some(Lookup(old(slots), k)) && slots == Promoted(old(slots), k)
      ensures !Has(old(slots), k) ==> r == None && slots == old(slots)
    {
      r := Peek(k);
      if r.Some? {
        PromotedWf(slots, capacity, k);
        slots := [r.value] + Without(slots, k);
      }
    }

    method Put(slot: Slot<V>)
      requires Valid()
      modifies this
      ensures Valid() && slots == Pushed(old(slots), capacity, slot)
    {
      PushedWf(slots, capacity, slot);
      var present := Peek(slot.key);
      WithoutWf(slots, slot.key);
      if present.None? && |slots| == capacity {
        slots := slots[..|slots| - 1];
        slots := [slot] + slots;
      } else {
        slots := [slot] + Without(slots, slot.key);
      }
    }

    method Pop(k: Key)
      requires Valid()
      modifies this
      ensures Valid() && slots == Without(old(slots), k)
    {
      WithoutWf(slots, k);
      slots := Without(slots, k);
    }
  }

  const DEFAULT_MAX_ENTRIES: nat := 200
  const DEFAULT_TTL_SECS: nat := 600
  const DEFAULT_DEDUP_WINDOW_SECS: nat := 30

  class ResponseCache<V> {
    const inner: LruCache<V>
    const ttl: nat
    const dedup: nat

    ghost predicate Valid()
      reads inner
    {
      inner.Valid()
    }

    function Settings(): Config {
      Config(inner.capacity, ttl, dedup)
    }

    /** A capacity of zero is read as one. */
    constructor WithConfig(maxEntries: nat, ttl: nat, dedup: nat)
      ensures Valid() && fresh(inner) && inner.slots == []
      ensures Settings() == Config(if maxEntries == 0 then 1 else maxEntries, ttl, dedup)
    {
      this.inner := new LruCache(if maxEntries == 0 then 1 else maxEntries);
      this.ttl := ttl;
      this.dedup := dedup;
    }

    /** The settings the client uses; `second` is the number of clock ticks in a second. */
    constructor New(second: nat)
      ensures Valid() && fresh(inner) && inner.slots == []
      ensures Settings() == Config(200, 600 * second, 30 * second)
    {
      this.inner := new LruCache(DEFAULT_MAX_ENTRIES);
      this.ttl := DEFAULT_TTL_SECS * second;
      this.dedup := DEFAULT_DEDUP_WINDOW_SECS * second;
    }

    method Get(k: Key, now: nat) returns (r: Option<V>)
      requires Valid()
      modifies inner
      ensures Valid()
      ensures r == Hit(Settings(), old(inner.slots), k, now)
      ensures inner.slots == AfterGet(Settings(), old(inner.slots), k, now)
    {
      var entry := inner.Peek(k);
      if entry.None? {
        return None;
      }
      if Elapsed(now, entry.value.inserted) > ttl {
        inner.Pop(k);
        return None;
      }
      var promoted := inner.Get(k);
      return Some(promoted.value.value);
    }

    method Put(k: Key, v: V, now: nat, stamp: nat)
      requires Valid()
      modifies inner
      ensures Valid()
      ensures inner.slots == AfterPut(Settings(), old(inner.slots), k, v, now, stamp)
    {
      var existing := inner.Peek(k);
      if existing.Some? {
        if Elapsed(now, existing.value.inserted) < dedup {
          return;
        }
      }
      inner.Put(Slot(k, v, stamp));
    }
  }
}
