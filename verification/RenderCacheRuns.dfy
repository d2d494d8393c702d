/** What the render cache guarantees over any sequence of `get` and `set` calls on a fresh cache. */
module RenderCacheRuns {
  import opened Basics
  import opened RenderCache

  datatype Op = Read(key: Key, now: int) | Write(key: Key, value: Bytes, now: int)

  function Apply(lim: Limits, c: Cache, op: Op): Cache {
    match op
    case Read(key, now) => Get(c, key, now).0
    case Write(key, value, now) => Set(lim, c, key, value, now)
  }

  function Replay(lim: Limits, ops: seq<Op>): Cache {
    if ops == [] then EMPTY else Apply(lim, Replay(lim, ops[..|ops| - 1]), ops[|ops| - 1])
  }

  // ----- accounting, from the history alone -----

  predicate Admits(lim: Limits, op: Op) {
    op.Write? && Admissible(lim, op.value)
  }

  function Reads(ops: seq<Op>): nat {
    if ops == [] then 0 else Reads(ops[..|ops| - 1]) + (if ops[|ops| - 1].Read? then 1 else 0)
  }

  function Admitted(lim: Limits, ops: seq<Op>): nat {
    if ops == [] then 0
    else Admitted(lim, ops[..|ops| - 1]) + (if Admits(lim, ops[|ops| - 1]) then 1 else 0)
  }

  /** Admitted writes that overwrote an entry still stored under their key. */
  function Replaced(lim: Limits, ops: seq<Op>): nat {
    if ops == [] then 0
    else
      var before, op := ops[..|ops| - 1], ops[|ops| - 1];
      Replaced(lim, before) + (if Admits(lim, op) && Find(Replay(lim, before).entries, op.key).Some? then 1 else 0)
  }

  /** The last admitted write of a key, as the entry it stored. */
  function LastAdmitted(lim: Limits, ops: seq<Op>, key: Key): Option<Entry> {
    if ops == [] then None
    else
      var op := ops[|ops| - 1];
      if Admits(lim, op) && op.key == key then Some(Entry(key, op.value, op.now + lim.ttlMs))
      else LastAdmitted(lim, ops[..|ops| - 1], key)
  }

  // ----- one operation -----

  lemma {:induction false} FitPart(list: seq<Entry>, budget: int)
    ensures Distinct(list) ==> Distinct(Fit(list, budget))
    ensures budget >= 0 ==> Total(Fit(list, budget)) <= budget
    ensures forall k :: Find(list, k).None? ==> Find(Fit(list, budget), k).None?
    ensures Distinct(list) ==>
              forall k :: Find(Fit(list, budget), k).Some? ==> Find(Fit(list, budget), k) == Find(list, k)
  {
    if list != [] && Total(list) > budget {
      FitPart(list[1..], budget);
    }
  }

  lemma SetKeepsBudget(lim: Limits, c: Cache, key: Key, value: Bytes, now: int)
    requires Distinct(c.entries) && Admissible(lim, value)
    ensures var c' := Set(lim, c, key, value, now);
            && Distinct(c'.entries)
            && c'.bytes == Total(c'.entries) <= lim.maxBytes
            && Find(c'.entries, key) == Some(Entry(key, value, now + lim.ttlMs))
            && (forall k :: k != key && Find(c'.entries, k).Some? ==> Find(c'.entries, k) == Find(c.entries, k))
  {
    var others := Without(c.entries, key);
    var kept := Fit(others, lim.maxBytes - |value|);
    var e := Entry(key, value, now + lim.ttlMs);
    WithoutOne(c.entries, key);
    FitPart(others, lim.maxBytes - |value|);
    TotalAppend(kept, e);
    AppendDistinct(kept, e);
    forall k
      ensures Find(kept + [e], k) == if Find(kept, k).Some? then Find(kept, k) else if e.key == k then Some(e) else None
    {
      FindAppend(kept, e, k);
    }
  }

  lemma GetKeepsBudget(c: Cache, key: Key, now: int)
    requires Distinct(c.entries) && c.bytes == Total(c.entries)
    ensures var c' := Get(c, key, now).0;
            && Distinct(c'.entries)
            && c'.bytes == Total(c'.entries) <= c.bytes
            && (forall k :: Find(c'.entries, k).Some? ==> Find(c'.entries, k) == Find(c.entries, k))
  {
    WithoutOne(c.entries, key);
    if Find(c.entries, key).Some? {
      var e := Find(c.entries, key).value;
      TotalAppend(Without(c.entries, key), e);
      AppendDistinct(Without(c.entries, key), e);
      forall k
        ensures Find(Without(c.entries, key) + [e], k).Some? ==>
                  Find(Without(c.entries, key) + [e], k) == Find(c.entries, k)
      {
        FindAppend(Without(c.entries, key), e, k);
      }
    }
  }

  // ----- every run -----

  /** `bytes` is always the sum of the stored sizes and never exceeds the budget. */
  lemma {:induction false} BytesAreExactAndBounded(lim: Limits, ops: seq<Op>)
    ensures var c := Replay(lim, ops);
            Distinct(c.entries) && c.bytes == Total(c.entries) <= lim.maxBytes
  {
    if ops != [] {
      var before, op := ops[..|ops| - 1], ops[|ops| - 1];
      var c := Replay(lim, before);
      BytesAreExactAndBounded(lim, before);
      if op.Read? {
        GetKeepsBudget(c, op.key, op.now);
      } else if Admits(lim, op) {
        SetKeepsBudget(lim, c, op.key, op.value, op.now);
      }
    }
  }

  /** Each read is a hit or a miss; each admitted entry is live, evicted, expired or replaced. */
  lemma {:induction false} CountersAreConserved(lim: Limits, ops: seq<Op>)
    ensures var c := Replay(lim, ops);
            && c.hits + c.misses == Reads(ops)
            && |c.entries| + c.evictions + c.expirations + Replaced(lim, ops) == Admitted(lim, ops)
  {
    if ops != [] {
      var before, op := ops[..|ops| - 1], ops[|ops| - 1];
      var c := Replay(lim, before);
      CountersAreConserved(lim, before);
      BytesAreExactAndBounded(lim, before);
      WithoutOne(c.entries, op.key);
    }
  }

  lemma StepStores(lim: Limits, c: Cache, op: Op, key: Key)
    requires Distinct(c.entries) && c.bytes == Total(c.entries)
    ensures var r := Find(Apply(lim, c, op).entries, key);
            r.Some? ==>
              r == if Admits(lim, op) && op.key == key then Some(Entry(key, op.value, op.now + lim.ttlMs))
                   else Find(c.entries, key)
  {
    if op.Read? {
      GetKeepsBudget(c, op.key, op.now);
    } else if Admits(lim, op) {
      SetKeepsBudget(lim, c, op.key, op.value, op.now);
    }
  }

  /** Whatever is stored under a key is what the last admitted write of that key put there. */
  lemma {:induction false} StoredIsLastAdmitted(lim: Limits, ops: seq<Op>, key: Key)
    ensures var r := Find(Replay(lim, ops).entries, key); r.Some? ==> r == LastAdmitted(lim, ops, key)
  {
    if ops != [] {
      var before := ops[..|ops| - 1];
      BytesAreExactAndBounded(lim, before);
      StoredIsLastAdmitted(lim, before, key);
      StepStores(lim, Replay(lim, before), ops[|ops| - 1], key);
    }
  }

  /**
   Reads never invent, mix up or resurrect values: a hit is the value of the last admitted write of
   that key, still within its lifetime.  Writes too large to admit do not count, so the older value
   stays readable.
  */
  lemma HitsReturnLastAdmitted(lim: Limits, ops: seq<Op>, key: Key, now: int)
    ensures var r, last := Get(Replay(lim, ops), key, now).1, LastAdmitted(lim, ops, key);
            r.Some? ==> last.Some? && last.value.value == r.value && now < last.value.expiresAt
  {
    StoredIsLastAdmitted(lim, ops, key);
  }

  // ----- least recently used -----

  lemma {:induction false} TailIsPart(list: seq<Entry>, key: Key)
    ensures Total(Tail(list, key)) <= Total(list)
  {
    if list != [] && list[0].key != key {
      TailIsPart(list[1..], key);
    }
  }

  lemma {:induction false} FitMembers(list: seq<Entry>, budget: int, key: Key)
    requires Distinct(list) && Find(list, key).Some?
    ensures Find(Fit(list, budget), key).Some? <==> Total(Tail(list, key)) <= budget
    ensures Find(Fit(list, budget), key).Some? ==> Tail(Fit(list, budget), key) == Tail(list, key)
  {
    TailIsPart(list, key);
    if Total(list) > budget {
      FitPart(list[1..], budget);
      if list[0].key != key {
        FitMembers(list[1..], budget, key);
      }
    }
  }

  /**
   The exact eviction rule: an entry of another key survives an admitted write just when its size,
   the sizes of the more recently used entries that are not being replaced, and the incoming size
   together fit the budget.
  */
  lemma EvictedExactlyWhenOverBudget(lim: Limits, c: Cache, key: Key, value: Bytes, now: int, other: Key)
    requires Distinct(c.entries) && Admissible(lim, value)
    requires other != key && Find(c.entries, other).Some?
    ensures Find(Set(lim, c, key, value, now).entries, other).None? <==>
            Total(Tail(Without(c.entries, key), other)) + |value| > lim.maxBytes
  {
    var others := Without(c.entries, key);
    WithoutOne(c.entries, key);
    FitMembers(others, lim.maxBytes - |value|, other);
    FindAppend(Fit(others, lim.maxBytes - |value|), Entry(key, value, now + lim.ttlMs), other);
  }

  /** The recency list kept with no budget: nothing is ever evicted, everything else is the same. */
  function Unbounded(lim: Limits, ops: seq<Op>): seq<Entry> {
    if ops == [] then []
    else Reorder(lim, Replay(lim, ops[..|ops| - 1]), Unbounded(lim, ops[..|ops| - 1]), ops[|ops| - 1])
  }

  /** A read moves a hit to the young end, forgets an expired entry and leaves a missing key alone. */
  function Reorder(lim: Limits, c: Cache, list: seq<Entry>, op: Op): seq<Entry> {
    match op
    case Write(key, value, now) =>
      if Admissible(lim, value) then Without(list, key) + [Entry(key, value, now + lim.ttlMs)] else list
    case Read(key, now) =>
      match Find(c.entries, key)
      case None => list
      case Some(e) => if e.expiresAt <= now then Without(list, key) else Without(list, key) + [e]
  }

  ghost predicate IsYoungEnd(s: seq<Entry>, list: seq<Entry>) {
    exists older: seq<Entry> :: list == older + s
  }

  lemma YoungEndWithout(s: seq<Entry>, list: seq<Entry>, key: Key)
    requires IsYoungEnd(s, list)
    ensures IsYoungEnd(Without(s, key), Without(list, key))
  {
    var older: seq<Entry> :| list == older + s;
    WithoutConcat(older, s, key);
  }

  lemma YoungEndAppend(s: seq<Entry>, list: seq<Entry>, e: Entry)
    requires IsYoungEnd(s, list)
    ensures IsYoungEnd(s + [e], list + [e])
  {
    var older: seq<Entry> :| list == older + s;
    assert list + [e] == older + (s + [e]);
  }

  lemma {:induction false} YoungEndFit(s: seq<Entry>, list: seq<Entry>, budget: int)
    requires IsYoungEnd(s, list)
    ensures IsYoungEnd(Fit(s, budget), list)
  {
    if s != [] && Total(s) > budget {
      var older: seq<Entry> :| list == older + s;
      assert list == (older + [s[0]]) + s[1..];
      YoungEndFit(s[1..], list, budget);
    }
  }

  lemma YoungEndStep(lim: Limits, c: Cache, list: seq<Entry>, op: Op)
    requires IsYoungEnd(c.entries, list)
    ensures IsYoungEnd(Apply(lim, c, op).entries, Reorder(lim, c, list, op))
  {
    YoungEndWithout(c.entries, list, op.key);
    match op
    case Read(key, now) =>
      if Find(c.entries, key).Some? {
        YoungEndAppend(Without(c.entries, key), Without(list, key), Find(c.entries, key).value);
      }
    case Write(key, value, now) =>
      YoungEndFit(Without(c.entries, key), Without(list, key), lim.maxBytes - |value|);
      YoungEndAppend(Fit(Without(c.entries, key), lim.maxBytes - |value|), Without(list, key),
                     Entry(key, value, now + lim.ttlMs));
  }

  /**
   The bounded cache is always the young end of the unbounded recency list: over a whole run, every
   entry lost to the budget was used less recently than every entry that is still cached.
  */
  lemma {:induction false} CacheIsYoungEndOfRecencyList(lim: Limits, ops: seq<Op>)
    ensures IsYoungEnd(Replay(lim, ops).entries, Unbounded(lim, ops))
  {
    if ops == [] {
      assert [] + EMPTY.entries == [];
    } else {
      var before := ops[..|ops| - 1];
      CacheIsYoungEndOfRecencyList(lim, before);
      YoungEndStep(lim, Replay(lim, before), Unbounded(lim, before), ops[|ops| - 1]);
    }
  }

  // ----- how long an entry stays -----

  lemma ReorderKeepsDistinct(lim: Limits, c: Cache, list: seq<Entry>, op: Op)
    requires Distinct(list)
    ensures Distinct(Reorder(lim, c, list, op))
  {
    WithoutOne(list, op.key);
    if op.Write? {
      AppendDistinct(Without(list, op.key), Entry(op.key, op.value, op.now + lim.ttlMs));
    } else if Find(c.entries, op.key).Some? {
      AppendDistinct(Without(list, op.key), Find(c.entries, op.key).value);
    }
  }

  lemma {:induction false} UnboundedIsDistinct(lim: Limits, ops: seq<Op>)
    ensures Distinct(Unbounded(lim, ops))
  {
    if ops != [] {
      var before := ops[..|ops| - 1];
      UnboundedIsDistinct(lim, before);
      ReorderKeepsDistinct(lim, Replay(lim, before), Unbounded(lim, before), ops[|ops| - 1]);
    }
  }

  lemma {:induction false} FindInConcat(older: seq<Entry>, s: seq<Entry>, key: Key)
    requires Find(s, key).Some?
    ensures Find(older + s, key).Some?
  {
    if older == [] {
      assert older + s == s;
    } else {
      assert (older + s)[1..] == older[1..] + s;
      FindInConcat(older[1..], s, key);
    }
  }

  lemma {:induction false} TailInConcat(older: seq<Entry>, s: seq<Entry>, key: Key)
    requires Distinct(older + s) && Find(s, key).Some?
    ensures Tail(older + s, key) == Tail(s, key)
  {
    if older == [] {
      assert older + s == s;
    } else {
      assert (older + s)[1..] == older[1..] + s;
      FindInConcat(older[1..], s, key);
      TailInConcat(older[1..], s, key);
    }
  }

  /** What was used since a cached entry is the same in the cache and in the list kept without a budget. */
  lemma TailOfYoungEnd(s: seq<Entry>, list: seq<Entry>, key: Key)
    requires IsYoungEnd(s, list) && Distinct(list) && Find(s, key).Some?
    ensures Tail(list, key) == Tail(s, key)
  {
    var older: seq<Entry> :| list == older + s;
    TailInConcat(older, s, key);
  }

  /** An operation that neither rewrites the entry nor finds it expired. */
  predicate Spares(lim: Limits, e: Entry, op: Op) {
    if op.key != e.key then true
    else if op.Read? then op.now < e.expiresAt
    else !Admits(lim, op)
  }

  lemma {:induction false} TailAppend(list: seq<Entry>, e: Entry, key: Key)
    requires Find(list, key).Some?
    ensures Tail(list + [e], key) == Tail(list, key) + [e]
  {
    if list[0].key != key {
      assert (list + [e])[1..] == list[1..] + [e];
      TailAppend(list[1..], e, key);
    }
  }

  /** A cache in the state some run leaves it in, with the list that run keeps without a budget. */
  ghost predicate Tracks(lim: Limits, c: Cache, list: seq<Entry>) {
    && Distinct(c.entries) && Total(c.entries) <= lim.maxBytes
    && Distinct(list) && IsYoungEnd(c.entries, list)
  }

  lemma RunTracks(lim: Limits, ops: seq<Op>)
    ensures Tracks(lim, Replay(lim, ops), Unbounded(lim, ops))
  {
    BytesAreExactAndBounded(lim, ops);
    UnboundedIsDistinct(lim, ops);
    CacheIsYoungEndOfRecencyList(lim, ops);
  }

  /** A stored entry and everything used since fit the budget. */
  lemma StoredMeansFits(lim: Limits, c: Cache, list: seq<Entry>, key: Key)
    requires Tracks(lim, c, list) && Find(c.entries, key).Some?
    ensures Total(Tail(list, key)) <= lim.maxBytes
  {
    TailOfYoungEnd(c.entries, list, key);
    TailIsPart(c.entries, key);
  }

  /** A write that evicts an entry leaves it, with everything used since, over the budget. */
  lemma EvictedMeansOverBudget(lim: Limits, c: Cache, list: seq<Entry>, e: Entry, op: Op)
    requires Tracks(lim, c, list) && Find(c.entries, e.key) == Some(e)
    requires Admits(lim, op) && op.key != e.key && Find(Apply(lim, c, op).entries, e.key).None?
    ensures Total(Tail(Reorder(lim, c, list, op), e.key)) > lim.maxBytes
  {
    var others, incoming := Without(c.entries, op.key), Entry(op.key, op.value, op.now + lim.ttlMs);
    EvictedExactlyWhenOverBudget(lim, c, op.key, op.value, op.now, e.key);
    WithoutOne(c.entries, op.key);
    WithoutOne(list, op.key);
    YoungEndWithout(c.entries, list, op.key);
    TailOfYoungEnd(others, Without(list, op.key), e.key);
    StillFound(others, Without(list, op.key), e.key);
    TailAppend(Without(list, op.key), incoming, e.key);
    TotalAppend(Tail(others, e.key), incoming);
  }

  lemma StillFound(s: seq<Entry>, list: seq<Entry>, key: Key)
    requires IsYoungEnd(s, list) && Find(s, key).Some?
    ensures Find(list, key).Some?
  {
    var older: seq<Entry> :| list == older + s;
    FindInConcat(older, s, key);
  }

  /** Only an admitted write of another key can take a spared entry out. */
  lemma SparedStaysOrGoes(lim: Limits, c: Cache, e: Entry, op: Op)
    requires Distinct(c.entries) && Find(c.entries, e.key) == Some(e) && Spares(lim, e, op)
    ensures var r := Find(Apply(lim, c, op).entries, e.key);
            r == Some(e) || (r == None && Admits(lim, op) && op.key != e.key)
  {
    WithoutOne(c.entries, op.key);
    if Admits(lim, op) {
      var kept := Fit(Without(c.entries, op.key), lim.maxBytes - |op.value|);
      FitPart(Without(c.entries, op.key), lim.maxBytes - |op.value|);
      FindAppend(kept, Entry(op.key, op.value, op.now + lim.ttlMs), e.key);
    } else if op.Read? && Find(c.entries, op.key).Some? {
      FindAppend(Without(c.entries, op.key), Find(c.entries, op.key).value, e.key);
    }
  }

  /** The last operation wrote the entry, or read it and hit. */
  predicate LastUses(lim: Limits, pre: seq<Op>, e: Entry) {
    pre != []
    && match pre[|pre| - 1]
       case Write(key, value, now) => Admissible(lim, value) && e == Entry(key, value, now + lim.ttlMs)
       case Read(key, now) =>
         key == e.key && now < e.expiresAt && Find(Replay(lim, pre[..|pre| - 1]).entries, key) == Some(e)
  }

  lemma UsedIsStored(lim: Limits, pre: seq<Op>, e: Entry)
    requires LastUses(lim, pre, e)
    ensures Find(Replay(lim, pre).entries, e.key) == Some(e)
  {
    var before, op := Replay(lim, pre[..|pre| - 1]), pre[|pre| - 1];
    BytesAreExactAndBounded(lim, pre[..|pre| - 1]);
    WithoutOne(before.entries, e.key);
    if op.Write? {
      var kept := Fit(Without(before.entries, e.key), lim.maxBytes - |op.value|);
      FitPart(Without(before.entries, e.key), lim.maxBytes - |op.value|);
      FindAppend(kept, e, e.key);
    } else {
      FindAppend(Without(before.entries, e.key), e, e.key);
    }
  }

  /** After these operations, the key's entry and everything used since it weigh no more than the budget. */
  predicate TailFits(lim: Limits, ops: seq<Op>, key: Key) {
    Total(Tail(Unbounded(lim, ops), key)) <= lim.maxBytes
  }

  predicate AlwaysFits(lim: Limits, pre: seq<Op>, ops: seq<Op>, key: Key) {
    forall i :: 0 <= i <= |ops| ==> TailFits(lim, pre + ops[..i], key)
  }

  lemma AlwaysFitsAtLast(lim: Limits, pre: seq<Op>, ops: seq<Op>, key: Key)
    requires ops != []
    ensures AlwaysFits(lim, pre, ops, key)
       <==> AlwaysFits(lim, pre, ops[..|ops| - 1], key) && TailFits(lim, pre + ops, key)
  {
    var earlier := ops[..|ops| - 1];
    assert forall i :: 0 <= i <= |earlier| ==> earlier[..i] == ops[..i];
    assert ops[..|ops|] == ops;
  }

  lemma StoredStep(lim: Limits, ops: seq<Op>, op: Op, e: Entry)
    requires Find(Replay(lim, ops).entries, e.key) == Some(e) && Spares(lim, e, op)
    ensures var r := Find(Replay(lim, ops + [op]).entries, e.key);
            (r == Some(e) || r == None) && (r == Some(e) <==> TailFits(lim, ops + [op], e.key))
  {
    assert (ops + [op])[..|ops|] == ops;
    RunTracks(lim, ops);
    RunTracks(lim, ops + [op]);
    SparedStaysOrGoes(lim, Replay(lim, ops), e, op);
    if Find(Replay(lim, ops + [op]).entries, e.key).Some? {
      StoredMeansFits(lim, Replay(lim, ops + [op]), Unbounded(lim, ops + [op]), e.key);
    } else {
      EvictedMeansOverBudget(lim, Replay(lim, ops), Unbounded(lim, ops), e, op);
    }
  }

  lemma GoneStaysGone(lim: Limits, ops: seq<Op>, op: Op, e: Entry)
    requires Find(Replay(lim, ops).entries, e.key).None? && Spares(lim, e, op)
    ensures Find(Replay(lim, ops + [op]).entries, e.key).None?
  {
    assert (ops + [op])[..|ops|] == ops;
    BytesAreExactAndBounded(lim, ops);
    StepStores(lim, Replay(lim, ops), op, e.key);
  }

  lemma StayStep(lim: Limits, ops: seq<Op>, op: Op, e: Entry)
    requires Spares(lim, e, op)
    requires var was := Find(Replay(lim, ops).entries, e.key); was == Some(e) || was == None
    ensures var r := Find(Replay(lim, ops + [op]).entries, e.key);
            && (r == Some(e) || r == None)
            && (r == Some(e) <==> Find(Replay(lim, ops).entries, e.key) == Some(e) && TailFits(lim, ops + [op], e.key))
  {
    if Find(Replay(lim, ops).entries, e.key).Some? {
      StoredStep(lim, ops, op, e);
    } else {
      GoneStaysGone(lim, ops, op, e);
    }
  }

  /** Either the entry or nothing is stored under its key: the entry while use has always fitted. */
  predicate Stays(lim: Limits, pre: seq<Op>, ops: seq<Op>, e: Entry) {
    var r := Find(Replay(lim, pre + ops).entries, e.key);
    (r == Some(e) || r == None) && (r == Some(e) <==> AlwaysFits(lim, pre, ops, e.key))
  }

  lemma StaysAtLast(lim: Limits, pre: seq<Op>, ops: seq<Op>, e: Entry)
    requires ops != [] && Spares(lim, e, ops[|ops| - 1]) && Stays(lim, pre, ops[..|ops| - 1], e)
    ensures Stays(lim, pre, ops, e)
  {
    var before, op := pre + ops[..|ops| - 1], ops[|ops| - 1];
    assert pre + ops == before + [op];
    AlwaysFitsAtLast(lim, pre, ops, e.key);
    StayStep(lim, before, op, e);
  }

  /** After its last use an entry is stored, and fits the budget. */
  lemma JustUsed(lim: Limits, pre: seq<Op>, e: Entry)
    requires LastUses(lim, pre, e)
    ensures Find(Replay(lim, pre + []).entries, e.key) == Some(e) && AlwaysFits(lim, pre, [], e.key)
  {
    assert pre + [] == pre && forall i :: 0 <= i <= 0 ==> pre + [][..i] == pre;
    UsedIsStored(lim, pre, e);
    RunTracks(lim, pre);
    StoredMeansFits(lim, Replay(lim, pre), Unbounded(lim, pre), e.key);
  }

  /**
   The exact rule over a whole run: after an entry's last use, be it the write or any later hit, and as
   long as it is neither rewritten nor read after its lifetime, it is stored just as long as its size
   and those of the entries used since, each counted once, have always fitted the budget together.
  */
  lemma {:induction false} StaysExactlyWhileUseFitsBudget(lim: Limits, pre: seq<Op>, e: Entry, ops: seq<Op>)
    requires LastUses(lim, pre, e)
    requires forall i :: 0 <= i < |ops| ==> Spares(lim, e, ops[i])
    ensures var r := Find(Replay(lim, pre + ops).entries, e.key);
            (r == Some(e) || r == None) && (r == Some(e) <==> AlwaysFits(lim, pre, ops, e.key))
  {
    if ops == [] {
      JustUsed(lim, pre, e);
    } else {
      StaysExactlyWhileUseFitsBudget(lim, pre, e, ops[..|ops| - 1]);
      StaysAtLast(lim, pre, ops, e);
    }
  }

  /** Hence a read hits exactly within the entry's lifetime and while use has fitted the budget. */
  lemma ReadsUntilExpiry(lim: Limits, pre: seq<Op>, e: Entry, ops: seq<Op>, now: int)
    requires LastUses(lim, pre, e)
    requires forall i :: 0 <= i < |ops| ==> Spares(lim, e, ops[i])
    ensures Get(Replay(lim, pre + ops), e.key, now).1
         == if now < e.expiresAt && AlwaysFits(lim, pre, ops, e.key) then Some(e.value) else None
  {
    StaysExactlyWhileUseFitsBudget(lim, pre, e, ops);
  }

  // ----- each counter -----

  /** The reads that were answered with a value. */
  function HitsOf(lim: Limits, ops: seq<Op>): nat {
    if ops == [] then 0
    else
      var before, op := ops[..|ops| - 1], ops[|ops| - 1];
      HitsOf(lim, before) + (if op.Read? && Get(Replay(lim, before), op.key, op.now).1.Some? then 1 else 0)
  }

  /** The reads that found an entry of their key, but too old to answer with. */
  function ExpiredReads(lim: Limits, ops: seq<Op>): nat {
    if ops == [] then 0
    else
      var before, op := ops[..|ops| - 1], ops[|ops| - 1];
      var c := Replay(lim, before);
      ExpiredReads(lim, before)
      + (if op.Read? && Find(c.entries, op.key).Some? && Get(c, op.key, op.now).1.None? then 1 else 0)
  }

  /** Each counter counts what its name says. */
  lemma {:induction false} CountersAreExact(lim: Limits, ops: seq<Op>)
    ensures var c := Replay(lim, ops);
            && c.hits == HitsOf(lim, ops) && c.misses == Reads(ops) - HitsOf(lim, ops)
            && c.expirations == ExpiredReads(lim, ops)
            && c.evictions == Admitted(lim, ops) - Replaced(lim, ops) - ExpiredReads(lim, ops) - |c.entries|
  {
    CountersAreConserved(lim, ops);
    if ops != [] {
      CountersAreExact(lim, ops[..|ops| - 1]);
    }
  }

  /** A write is stored exactly when there is a budget and the value alone fits it; otherwise nothing changes. */
  lemma WritesThatFitAreStored(lim: Limits, ops: seq<Op>, key: Key, value: Bytes, now: int)
    ensures var before, after := Replay(lim, ops), Replay(lim, ops + [Write(key, value, now)]);
            if 0 < lim.maxBytes && |value| <= lim.maxBytes then
              Find(after.entries, key) == Some(Entry(key, value, now + lim.ttlMs))
            else after == before
  {
    assert (ops + [Write(key, value, now)])[..|ops|] == ops;
    BytesAreExactAndBounded(lim, ops);
    if Admissible(lim, value) {
      SetKeepsBudget(lim, Replay(lim, ops), key, value, now);
    }
  }
}
