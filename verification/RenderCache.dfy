/**
 The byte-budget LRU/TTL cache of the Node renderer.

 A JavaScript `Map` iterates in insertion order, so the entries are a sequence with distinct keys,
 oldest first; deleting and re-inserting a key moves it to the young end.
*/
module RenderCache {
  import opened Basics

  type Key = string

  datatype Entry = Entry(key: Key, value: Bytes, expiresAt: int)

  datatype Limits = Limits(maxBytes: nat, ttlMs: nat)

  datatype Cache = Cache(
    entries: seq<Entry>,
    bytes: int,
    hits: nat,
    misses: nat,
    evictions: nat,
    expirations: nat)

  const EMPTY := Cache([], 0, 0, 0, 0, 0)

  // ----- recency lists -----

  function Find(list: seq<Entry>, key: Key): (r: Option<Entry>)
    ensures r.Some? ==> r.value.key == key
  {
    if list == [] then None
    else if list[0].key == key then Some(list[0])
    else Find(list[1..], key)
  }

  predicate Distinct(list: seq<Entry>) {
    list == [] || (Find(list[1..], list[0].key).None? && Distinct(list[1..]))
  }

  function Total(list: seq<Entry>): nat {
    if list == [] then 0 else |list[0].value| + Total(list[1..])
  }

  function Without(list: seq<Entry>, key: Key): seq<Entry> {
    if list == [] then []
    else if list[0].key == key then Without(list[1..], key)
    else [list[0]] + Without(list[1..], key)
  }

  /** The entry of a key together with everything used after it. */
  function Tail(list: seq<Entry>, key: Key): seq<Entry> {
    if list == [] || list[0].key == key then list else Tail(list[1..], key)
  }

  /** Dropping the oldest entries until the rest fit the budget or nothing is left. */
  function Fit(list: seq<Entry>, budget: int): (r: seq<Entry>)
    ensures |r| <= |list|
  {
    if list == [] || Total(list) <= budget then list else Fit(list[1..], budget)
  }

  // ----- operations -----

  function Get(c: Cache, key: Key, now: int): (Cache, Option<Bytes>) {
    match Find(c.entries, key)
    case None => (c.(misses := c.misses + 1), None)
    case Some(e) =>
      if e.expiresAt <= now then
        (c.(misses := c.misses + 1, expirations := c.expirations + 1,
            entries := Without(c.entries, key), bytes := c.bytes - |e.value|),
         None)
      else
        (c.(hits := c.hits + 1, entries := Without(c.entries, key) + [e]), Some(e.value))
  }

  predicate Admissible(lim: Limits, value: Bytes) {
    lim.maxBytes != 0 && |value| <= lim.maxBytes
  }

  function Set(lim: Limits, c: Cache, key: Key, value: Bytes, now: int): Cache {
    if !Admissible(lim, value) then c
    else
      var others := Without(c.entries, key);
      var kept := Fit(others, lim.maxBytes - |value|);
      Cache(kept + [Entry(key, value, now + lim.ttlMs)],
            Total(kept) + |value|,
            c.hits, c.misses, c.evictions + (|others| - |kept|), c.expirations)
  }

  // ----- facts about recency lists -----

  lemma {:induction false} TotalConcat(a: seq<Entry>, b: seq<Entry>)
    ensures Total(a + b) == Total(a) + Total(b)
  {
    if a == [] {
      assert a + b == b;
    } else {
      assert (a + b)[1..] == a[1..] + b;
      TotalConcat(a[1..], b);
    }
  }

  lemma TotalAppend(list: seq<Entry>, e: Entry)
    ensures Total(list + [e]) == Total(list) + |e.value|
  {
    TotalConcat(list, [e]);
    assert [e][1..] == [];
  }

  lemma {:induction false} WithoutConcat(a: seq<Entry>, b: seq<Entry>, key: Key)
    ensures Without(a + b, key) == Without(a, key) + Without(b, key)
  {
    if a == [] {
      assert a + b == b;
    } else {
      assert (a + b)[1..] == a[1..] + b;
      WithoutConcat(a[1..], b, key);
    }
  }

  lemma {:induction false} WithoutMissing(list: seq<Entry>, key: Key)
    requires Find(list, key).None?
    ensures Without(list, key) == list
  {
    if list != [] {
      WithoutMissing(list[1..], key);
    }
  }

  /** Removing a key from a list with distinct keys removes one entry and nothing else. */
  lemma {:induction false} WithoutOne(list: seq<Entry>, key: Key)
    requires Distinct(list)
    ensures Distinct(Without(list, key)) && Find(Without(list, key), key).None?
    ensures forall k :: k != key ==> Find(Without(list, key), k) == Find(list, k)
    ensures match Find(list, key)
            case None => Without(list, key) == list
            case Some(e) =>
              |Without(list, key)| == |list| - 1 && Total(Without(list, key)) == Total(list) - |e.value|
  {
    if list != [] {
      WithoutOne(list[1..], key);
      if list[0].key == key {
        WithoutMissing(list[1..], key);
      }
    }
  }

  lemma {:induction false} AppendDistinct(list: seq<Entry>, e: Entry)
    requires Distinct(list) && Find(list, e.key).None?
    ensures Distinct(list + [e])
  {
    if list != [] {
      assert (list + [e])[1..] == list[1..] + [e];
      AppendDistinct(list[1..], e);
      FindAppend(list[1..], e, list[0].key);
    }
  }

  lemma {:induction false} FindAppend(list: seq<Entry>, e: Entry, key: Key)
    ensures Find(list + [e], key)
         == if Find(list, key).Some? then Find(list, key) else if e.key == key then Some(e) else None
  {
    if list == [] {
      assert list + [e] == [e];
    } else {
      assert (list + [e])[1..] == list[1..] + [e];
      FindAppend(list[1..], e, key);
    }
  }

  class RenderCache {
    const lim: Limits
    var entries: seq<Entry>
    var bytes: int
    var hits: nat
    var misses: nat
    var evictions: nat
    var expirations: nat

    ghost function View(): Cache
      reads this
    {
      Cache(entries, bytes, hits, misses, evictions, expirations)
    }

    ghost predicate Valid()
      reads this
    {
      Distinct(entries) && bytes == Total(entries)
    }

    constructor (maxBytes: nat, ttlMs: nat)
      ensures lim == Limits(maxBytes, ttlMs)
      ensures View() == EMPTY && Valid()
    {
      lim := Limits(maxBytes, ttlMs);
      entries, bytes, hits, misses, evictions, expirations := [], 0, 0, 0, 0, 0;
    }

    method Lookup(key: Key, now: int) returns (r: Option<Bytes>)
      requires Valid()
      modifies this
      ensures Valid() && (View(), r) == Get(old(View()), key, now)
    {
      var entry := Find(entries, key);
      if entry.None? {
        misses := misses + 1;
        return None;
      }
      if entry.value.expiresAt <= now {
        misses := misses + 1;
        expirations := expirations + 1;
        Delete(key);
        return None;
      }
      hits := hits + 1;
      WithoutOne(entries, key);
      entries := Without(entries, key);
      AppendDistinct(entries, entry.value);
      TotalAppend(entries, entry.value);
      entries := entries + [entry.value];
      r := Some(entry.value.value);
    }

    method Store(key: Key, value: Bytes, now: int)
      requires Valid()
      modifies this
      ensures Valid() && View() == Set(lim, old(View()), key, value, now)
    {
      if lim.maxBytes == 0 || |value| > lim.maxBytes {
        return;
      }
      WithoutOne(entries, key);
      if Find(entries, key).Some? {
        Delete(key);
      }
      MakeRoom(key, |value|);
      var entry := Entry(key, value, now + lim.ttlMs);
      AppendDistinct(entries, entry);
      TotalAppend(entries, entry);
      entries := entries + [entry];
      bytes := bytes + |value|;
    }

    /** The eviction loop of `set`. */
    method MakeRoom(ghost key: Key, size: nat)
      requires Valid() && Find(entries, key).None?
      modifies this`entries, this`bytes, this`evictions
      ensures Valid() && Find(entries, key).None?
      ensures entries == Fit(old(entries), lim.maxBytes - size)
      ensures evictions == old(evictions) + (|old(entries)| - |entries|)
    {
      while bytes + size > lim.maxBytes && |entries| > 0
        invariant Valid() && Find(entries, key).None?
        invariant |entries| <= |old(entries)| && evictions == old(evictions) + (|old(entries)| - |entries|)
        invariant Fit(entries, lim.maxBytes - size) == Fit(old(entries), lim.maxBytes - size)
        decreases |entries|
      {
        WithoutMissing(entries[1..], entries[0].key);
        Delete(entries[0].key);
        evictions := evictions + 1;
      }
    }

    /** Deleting a key keeps `bytes` the sum of the sizes. */
    method Delete(key: Key)
      requires Valid()
      modifies this`entries, this`bytes
      ensures Valid() && entries == Without(old(entries), key)
      ensures bytes == old(bytes) - (match old(Find(entries, key)) case Some(e) => |e.value| case None => 0)
    {
      WithoutOne(entries, key);
      var entry := Find(entries, key);
      if entry.Some? {
        bytes := bytes - |entry.value.value|;
        entries := Without(entries, key);
      }
    }
  }
}
