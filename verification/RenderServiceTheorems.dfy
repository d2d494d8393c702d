/**
 What every run of the image service guarantees: which record a served image was drawn from, which
 records can be served another's image, how often a job renders, and what the counters count.
*/
module RenderServiceTheorems {
  import opened Basics
  import opened Counting
  import opened Decimals
  import opened RenderService
  import opened Strings
  import Q = RenderQueue
  import QR = RenderQueueRuns
  import QT = RenderQueueTheorems

  // ----- where records come from -----

  /** The records calls were made with. */
  function BegunBy(acts: seq<Action>): set<Record> {
    if acts == [] then {} else (if acts[0].Begin? then {acts[0].record} else {}) + BegunBy(acts[1..])
  }

  ghost predicate RecordsAmong(s: State, begun: set<Record>) {
    && (forall c :: 0 <= c < |s.calls| ==> s.calls[c].record in begun)
    && (forall i :: 0 <= i < |s.jobs| ==> s.jobs[i] in begun)
  }

  lemma StepKeepsRecords(s: State, a: Action, begun: set<Record>)
    requires RecordsAmong(s, begun) && Enabled(s, a)
    ensures RecordsAmong(Next(s, a), begun + BegunBy([a])) && Next(s, a).versions == s.versions
  {
    assert [a][1..] == [];
  }

  lemma {:induction false} RunKeepsRecords(s: State, acts: seq<Action>, begun: set<Record>)
    requires RecordsAmong(s, begun) && ValidRun(s, acts)
    ensures RecordsAmong(Exec(s, acts), begun + BegunBy(acts)) && Exec(s, acts).versions == s.versions
    decreases |acts|
  {
    if acts == [] {
      assert begun + BegunBy(acts) == begun;
    } else {
      StepKeepsRecords(s, acts[0], begun);
      RunKeepsRecords(Next(s, acts[0]), acts[1..], begun + BegunBy([acts[0]]));
      assert [acts[0]][1..] == [];
      assert begun + BegunBy([acts[0]]) + BegunBy(acts[1..]) == begun + BegunBy(acts);
    }
  }

  lemma {:induction false} BegunByACall(acts: seq<Action>, r: Record) returns (k: nat)
    requires r in BegunBy(acts)
    ensures k < |acts| && acts[k] == Begin(r)
  {
    if acts[0].Begin? && acts[0].record == r {
      k := 0;
    } else {
      k := BegunByACall(acts[1..], r);
      k := k + 1;
    }
  }

  // ----- where images come from -----

  /** Action `m` ends a render of job `i`, whose record is `r`, with the image `png`. */
  ghost predicate Drew(s0: State, acts: seq<Action>, m: nat, i: nat, r: Record, png: Bytes)
    requires ValidRun(s0, acts)
  {
    m < |acts| && acts[m] == RenderOk(i, png)
    && i < |StateAt(s0, acts, m).jobs| && StateAt(s0, acts, m).jobs[i] == r
  }

  /** A call made with the record `r` led to a later render of a job for `r` that gave `png`. */
  ghost predicate Origin(s0: State, acts: seq<Action>, k: nat, m: nat, i: nat, r: Record, png: Bytes)
    requires ValidRun(s0, acts)
  {
    k < m && Drew(s0, acts, m, i, r, png) && acts[k] == Begin(r)
  }

  lemma StateAtPrefix(s0: State, acts: seq<Action>, n: nat, m: nat)
    requires ValidRun(s0, acts) && m <= n <= |acts|
    ensures ValidRun(s0, acts[..n]) && StateAt(s0, acts[..n], m) == StateAt(s0, acts, m)
  {
    RunSplits(s0, acts, n);
    assert acts[..n][..m] == acts[..m];
  }

  lemma {:induction false} RenderedWasDrawn(s0: State, acts: seq<Action>, r: Record, png: Bytes)
    returns (m: nat, i: nat)
    requires ValidRun(s0, acts) && s0.rendered == {} && (r, png) in Exec(s0, acts).rendered
    ensures Drew(s0, acts, m, i, r, png)
    decreases |acts|
  {
    var n := |acts|;
    assert acts[..n] == acts;
    assert n > 0;
    StateAtStep(s0, acts, n - 1);
    var before, a := StateAt(s0, acts, n - 1), acts[n - 1];
    if (r, png) in before.rendered {
      RunSplits(s0, acts, n - 1);
      m, i := RenderedWasDrawn(s0, acts[..n - 1], r, png);
      StateAtPrefix(s0, acts, n - 1, m);
    } else {
      m, i := n - 1, a.i;
    }
  }

  lemma {:induction false} DrawnIsRendered(s0: State, acts: seq<Action>, m: nat, i: nat, r: Record, png: Bytes)
    requires ValidRun(s0, acts) && Drew(s0, acts, m, i, r, png)
    ensures (r, png) in Exec(s0, acts).rendered
  {
    StateAtStep(s0, acts, m);
    assert (r, png) in StateAt(s0, acts, m + 1).rendered;
    RunSplits(s0, acts, m + 1);
    RenderedOnlyGrows(StateAt(s0, acts, m + 1), acts[m + 1..]);
  }

  lemma {:induction false} RenderedOnlyGrows(s: State, acts: seq<Action>)
    requires ValidRun(s, acts)
    ensures s.rendered <= Exec(s, acts).rendered
    decreases |acts|
  {
    if acts != [] {
      RenderedOnlyGrows(Next(s, acts[0]), acts[1..]);
    }
  }

  lemma RenderedHasOrigin(v: Versions, cfg: Q.Config, acts: seq<Action>, r: Record, png: Bytes)
    returns (k: nat, m: nat, i: nat)
    requires ValidRun(Init(v, cfg), acts) && (r, png) in Exec(Init(v, cfg), acts).rendered
    ensures Origin(Init(v, cfg), acts, k, m, i, r, png)
  {
    var s0 := Init(v, cfg);
    m, i := RenderedWasDrawn(s0, acts, r, png);
    RunSplits(s0, acts, m);
    RunKeepsRecords(s0, acts[..m], {});
    k := BegunByACall(acts[..m], r);
  }

  /** Some call's record with this cache key was rendered, in this run, to `png`. */
  ghost predicate DrawnInRun(v: Versions, cfg: Q.Config, acts: seq<Action>, key: string, png: Bytes)
    requires ValidRun(Init(v, cfg), acts)
  {
    exists k, m, i, r: Record :: Origin(Init(v, cfg), acts, k, m, i, r, png) && CacheKey(v, r) == key
  }

  lemma DrawnForIsDrawnInRun(v: Versions, cfg: Q.Config, acts: seq<Action>, key: string, png: Bytes)
    requires ValidRun(Init(v, cfg), acts) && DrawnFor(Exec(Init(v, cfg), acts), key, png)
    ensures DrawnInRun(v, cfg, acts, key, png)
  {
    var s := Exec(Init(v, cfg), acts);
    RunKeepsRecords(Init(v, cfg), acts, {});
    var r: Record :| (r, png) in s.rendered && CacheKey(s.versions, r) == key;
    var k, m, i := RenderedHasOrigin(v, cfg, acts, r, png);
  }

  /**
   Whatever the interleaving, sharing, retries and evictions, each cached image is a successful
   render, in this run, of a record some call was made with and that has that cache key; so is each
   image handed to a caller.
  */
  lemma ServedImagesBelongToTheirKey(v: Versions, cfg: Q.Config, acts: seq<Action>)
    requires cfg.Valid() && ValidRun(Init(v, cfg), acts) && SafeRun(v, acts)
    ensures var s := Exec(Init(v, cfg), acts);
            && (forall key :: key in s.cache ==> DrawnInRun(v, cfg, acts, key, s.cache[key]))
            && (forall c :: 0 <= c < |s.calls| && s.calls[c].phase.Served? ==>
                  DrawnInRun(v, cfg, acts, CacheKey(v, s.calls[c].record), s.calls[c].phase.png))
  {
    var s := Exec(Init(v, cfg), acts);
    RunKeepsInv(Init(v, cfg), acts);
    RunKeepsRecords(Init(v, cfg), acts, {});
    forall key | key in s.cache ensures DrawnInRun(v, cfg, acts, key, s.cache[key]) {
      DrawnForIsDrawnInRun(v, cfg, acts, key, s.cache[key]);
    }
    forall c | 0 <= c < |s.calls| && s.calls[c].phase.Served?
      ensures DrawnInRun(v, cfg, acts, CacheKey(v, s.calls[c].record), s.calls[c].phase.png)
    {
      assert CallOk(s, c);
      DrawnForIsDrawnInRun(v, cfg, acts, CacheKey(v, s.calls[c].record), s.calls[c].phase.png);
    }
  }

  // ----- what an image shows -----

  /** Ids without colons, as numbers and the site's own ids are. */
  predicate PlainIds(r: Record) {
    r.Loadout? ==> Lacks(r.PlayerText(), ':') && Lacks(r.LoadoutText(), ':')
  }

  /** The record has all its ids, and no colon in them. */
  predicate Named(r: Record) {
    r.Identified() && PlainIds(r)
  }

  /**
   The same match, or the same version of the same player's loadout.  Records that do not say what they
   are of share no subject, unless they are one and the same.
  */
  predicate SameSubject(a: Record, b: Record) {
    a == b
    || (a.Identified() && b.Identified()
        && if a.Match? then b.Match? && a.matchId == b.matchId
           else b.Loadout? && a.playerId == b.playerId && a.loadoutId == b.loadoutId && a.Stamp() == b.Stamp())
  }

  lemma LoadoutTextsAreInjective(v: Versions, a: Record, b: Record)
    requires a.Loadout? && b.Loadout? && PlainIds(a) && PlainIds(b) && CacheKey(v, a) == CacheKey(v, b)
    ensures a.PlayerText() == b.PlayerText() && a.LoadoutText() == b.LoadoutText() && a.VersionText() == b.VersionText()
  {
    LoadoutKeyInside(v, a);
    LoadoutKeyInside(v, b);
    ColonSplits(a.PlayerText(), a.LoadoutText() + ":" + a.VersionText(),
                b.PlayerText(), b.LoadoutText() + ":" + b.VersionText());
    ColonSplits(a.LoadoutText(), a.VersionText(), b.LoadoutText(), b.VersionText());
  }

  /** Among records with all ids and no colon in them, cache keys identify what is drawn. */
  lemma KeysIdentifySubjects(v: Versions, a: Record, b: Record)
    requires Named(a) && Named(b)
    ensures CacheKey(v, a) == CacheKey(v, b) <==> SameSubject(a, b)
  {
    if CacheKey(v, a) == CacheKey(v, b) {
      if a.Match? && b.Match? {
        MatchKeysAreInjective(v, a, b);
      } else if a.Loadout? && b.Loadout? {
        LoadoutTextsAreInjective(v, a, b);
      } else if a.Match? {
        KindsHaveDifferentKeys(v, a, b);
      } else {
        KindsHaveDifferentKeys(v, b, a);
      }
    }
  }

  /** A named record with the cache key of a record that is not: it is of another subject. */
  lemma UnnamedHasNamedDouble(v: Versions, r: Record) returns (other: Record)
    requires !Named(r)
    ensures Named(other) && (other.Match? <==> r.Match?)
    ensures CacheKey(v, other) == CacheKey(v, r) && !SameSubject(other, r)
  {
    if r.Match? {
      other := Match(Some(UNKNOWN), []);
    } else {
      LoadoutKeysAreSpelledSo(v, r);
      other := SpelledLikeALoadout(v, CacheKey(v, r));
    }
  }

  /** The condition is exact: a record is named just when no named record of another subject has its key. */
  lemma NamedExactlyWhenNoNamedDouble(v: Versions, r: Record)
    ensures Named(r)
       <==> forall other: Record :: Named(other) && CacheKey(v, other) == CacheKey(v, r) ==> SameSubject(other, r)
  {
    if Named(r) {
      forall other: Record | Named(other) && CacheKey(v, other) == CacheKey(v, r) ensures SameSubject(other, r) {
        KeysIdentifySubjects(v, other, r);
      }
    } else {
      var other := UnnamedHasNamedDouble(v, r);
    }
  }

  lemma ColonAt(s: string) returns (k: nat)
    requires !Lacks(s, ':')
    ensures k < |s| && s[k] == ':'
  {
    k :| 0 <= k < |s| && s[k] == ':';
  }

  /** No text in the record's key is the one that stands for a missing id, or could be cut elsewhere. */
  predicate Unambiguous(r: Record) {
    && Named(r)
    && if r.Match? then r.MatchText() != UNKNOWN
       else r.PlayerText() != UNKNOWN && r.LoadoutText() != UNKNOWN && r.VersionText() != UNKNOWN
            && Lacks(r.VersionText(), ':')
  }

  /**
   Of one record alone: its key belongs to no other subject just when no text in it is the word for a
   missing one and its time has no colon either.  A time written with colons can be told from the ids
   only because those have none.
  */
  lemma KeyIsUnambiguousExactly(v: Versions, r: Record)
    ensures Unambiguous(r)
       <==> forall other: Record :: CacheKey(v, other) == CacheKey(v, r) ==> SameSubject(other, r)
  {
    if Unambiguous(r) {
      forall other: Record | CacheKey(v, other) == CacheKey(v, r) ensures SameSubject(other, r) {
        UniqueParts(v, r, other);
      }
    } else if !Named(r) {
      var other := UnnamedHasNamedDouble(v, r);
    } else {
      var other := NamedButAmbiguous(v, r);
    }
  }

  lemma NamedButAmbiguous(v: Versions, r: Record) returns (other: Record)
    requires Named(r) && !Unambiguous(r)
    ensures CacheKey(v, other) == CacheKey(v, r) && !SameSubject(other, r)
  {
    if r.Match? {
      other := Match(None, []);
    } else if r.PlayerText() == UNKNOWN {
      other := r.(playerId := None);
    } else if r.LoadoutText() == UNKNOWN {
      other := r.(loadoutId := None);
    } else if r.VersionText() == UNKNOWN {
      other := r.(updatedAt := None, fetchedAt := None);
    } else {
      var k := ColonAt(r.VersionText());
      SplitAt(r.VersionText(), k);
      var moved, rest := r.VersionText()[..k], r.VersionText()[k + 1..];
      other := Loadout(r.playerId, Some(r.LoadoutText() + ":" + moved), Some(rest), None, []);
      ShiftedColon(v, r, other, moved);
    }
  }

  lemma ShiftedColon(v: Versions, r: Record, other: Record, moved: string)
    requires r.Loadout? && other.Loadout? && other.PlayerText() == r.PlayerText()
    requires other.LoadoutText() == r.LoadoutText() + ":" + moved
    requires r.VersionText() == moved + ":" + other.VersionText()
    ensures CacheKey(v, other) == CacheKey(v, r)
  {
    LoadoutKeyParts(v, r);
    LoadoutKeyParts(v, other);
    assert r.LoadoutText() + ":" + r.VersionText() == other.LoadoutText() + ":" + other.VersionText();
  }

  lemma UniqueParts(v: Versions, r: Record, other: Record)
    requires Unambiguous(r) && CacheKey(v, other) == CacheKey(v, r)
    ensures SameSubject(other, r)
  {
    if other.Match? && r.Match? {
      MatchKeysAreInjective(v, other, r);
    } else if other.Match? {
      KindsHaveDifferentKeys(v, other, r);
    } else if r.Match? {
      KindsHaveDifferentKeys(v, r, other);
    } else {
      LoadoutKeyInside(v, r);
      LoadoutKeyInside(v, other);
      TwoColonsOnly(r.PlayerText(), r.LoadoutText(), r.VersionText(),
                    other.PlayerText(), other.LoadoutText(), other.VersionText());
    }
  }

  lemma TwoColonsOnly(p: string, q: string, u: string, p': string, q': string, u': string)
    requires Lacks(p, ':') && Lacks(q, ':') && Lacks(u, ':')
    requires p + ":" + (q + ":" + u) == p' + ":" + (q' + ":" + u')
    ensures p == p' && q == q' && u == u'
  {
    var x := p + ":" + (q + ":" + u);
    assert forall k :: 0 <= k < |x| && x[k] == ':' ==> k == |p| || k == |p| + 1 + |q|;
    assert x[|p'|] == ':' && x[|p'| + 1 + |q'|] == ':';
    assert |p'| == |p| && |q'| == |q|;
    assert p == x[..|p|] && p' == x[..|p|];
    assert q == x[|p| + 1..|p| + 1 + |q|] && q' == x[|p| + 1..|p| + 1 + |q|];
    assert u == x[|p| + |q| + 2..] && u' == x[|p| + |q| + 2..];
  }

  /** The records the service serves right: fully identified, no colon in an id, no match like a loadout's key. */
  predicate Good(v: Versions, r: Record) {
    SafeRecord(v, r) && Named(r)
  }

  predicate GoodRun(v: Versions, acts: seq<Action>) {
    forall r :: r in BegunBy(acts) ==> Good(v, r)
  }

  /** An image of this subject: a call made with a record of the same subject led to the render. */
  ghost predicate Shows(s0: State, acts: seq<Action>, subject: Record, png: Bytes)
    requires ValidRun(s0, acts)
  {
    exists k, m, i, r: Record :: Origin(s0, acts, k, m, i, r, png) && SameSubject(r, subject)
  }

  /** Call `c` was made with `r` and was served `png`. */
  ghost predicate ServedIn(s0: State, acts: seq<Action>, c: nat, r: Record, png: Bytes)
    requires ValidRun(s0, acts)
  {
    c < |Exec(s0, acts).calls| && Exec(s0, acts).calls[c] == Call(r, Served(png))
  }

  lemma {:induction false} BeginIsBegun(acts: seq<Action>, k: nat)
    requires k < |acts| && acts[k].Begin?
    ensures acts[k].record in BegunBy(acts)
  {
    if k > 0 {
      BeginIsBegun(acts[1..], k - 1);
    }
  }

  lemma GoodRunIsSafe(v: Versions, acts: seq<Action>)
    requires GoodRun(v, acts)
    ensures SafeRun(v, acts)
  {
    forall k | 0 <= k < |acts| && acts[k].Begin? ensures SafeRecord(v, acts[k].record) {
      BeginIsBegun(acts, k);
    }
  }

  /**
   What callers care about: every image served for a match shows that match, and every image served
   for a loadout shows that version of that player's loadout.
  */
  lemma ServedImagesShowTheirSubject(v: Versions, cfg: Q.Config, acts: seq<Action>, c: nat, r: Record, png: Bytes)
    requires cfg.Valid() && ValidRun(Init(v, cfg), acts) && GoodRun(v, acts)
    requires ServedIn(Init(v, cfg), acts, c, r, png)
    ensures Shows(Init(v, cfg), acts, r, png)
  {
    GoodRunIsSafe(v, acts);
    ServedImagesBelongToTheirKey(v, cfg, acts);
    RunKeepsRecords(Init(v, cfg), acts, {});
    assert DrawnInRun(v, cfg, acts, CacheKey(v, r), png);
    var k, m, i, drawn: Record :|
      Origin(Init(v, cfg), acts, k, m, i, drawn, png) && CacheKey(v, drawn) == CacheKey(v, r);
    BeginIsBegun(acts, k);
    KeysIdentifySubjects(v, drawn, r);
  }

  // ----- records that can be served another's image -----

  /** Every other record shares its queue slot with some good record of another subject. */
  lemma BadRecordHasGoodDouble(v: Versions, r: Record) returns (l: Record)
    requires !Good(v, r)
    ensures Good(v, l) && QueueKey(v, l) == QueueKey(v, r) && !SameSubject(l, r)
    ensures !SafeRecord(v, r) ==> l.Loadout?
  {
    if r.Match? && IsLoadoutKey(v, r.MatchText()) {
      l := SpelledLikeALoadout(v, r.MatchText());
    } else if r.Match? {
      l := Match(Some(UNKNOWN), []);
    } else {
      l := UnnamedHasNamedDouble(v, r);
    }
  }

  ghost predicate CanReach(v: Versions, cfg: Q.Config, begun: set<Record>, s: State) {
    exists acts: seq<Action> ::
      ValidRun(Init(v, cfg), acts) && s == Exec(Init(v, cfg), acts) && BegunBy(acts) == begun
  }

  lemma {:induction false} BegunAppend(acts: seq<Action>, more: seq<Action>)
    ensures BegunBy(acts + more) == BegunBy(acts) + BegunBy(more)
  {
    if acts == [] {
      assert acts + more == more;
    } else {
      assert (acts + more)[0] == acts[0] && (acts + more)[1..] == acts[1..] + more;
      BegunAppend(acts[1..], more);
    }
  }

  lemma Steps(v: Versions, cfg: Q.Config, begun: set<Record>, s: State, a: Action) returns (s': State)
    requires CanReach(v, cfg, begun, s) && Enabled(s, a)
    ensures s' == Next(s, a) && CanReach(v, cfg, begun + (if a.Begin? then {a.record} else {}), s')
  {
    var acts: seq<Action> :|
      ValidRun(Init(v, cfg), acts) && s == Exec(Init(v, cfg), acts) && BegunBy(acts) == begun;
    OneStep(s, a);
    RunsChain(Init(v, cfg), acts, [a]);
    BegunAppend(acts, [a]);
    assert [a][1..] == [];
    s' := Next(s, a);
  }

  /** A step that begins no call. */
  lemma Moves(v: Versions, cfg: Q.Config, begun: set<Record>, s: State, a: Action) returns (s': State)
    requires CanReach(v, cfg, begun, s) && Enabled(s, a) && !a.Begin?
    ensures s' == Next(s, a) && CanReach(v, cfg, begun, s')
  {
    s' := Steps(v, cfg, begun, s, a);
    assert begun + {} == begun;
  }

  /** The first of two records with one queue key, queued alone. */
  lemma FirstIsQueued(v: Versions, cfg: Q.Config, l: Record) returns (s: State)
    requires cfg.Valid()
    ensures CanReach(v, cfg, {l}, s) && s.versions == v && s.rendered == {} && s.cache == map[]
    ensures s.jobs == [l] && s.attempts == [Attempt(0, false)] && |s.calls| == 1
    ensures s.q.cfg == cfg && s.q.sh.permits == cfg.concurrency && |s.q.sh.holders| == 1
    ensures s.q.sh.inFlight == map[QueueKey(v, l) := 0]
    ensures s.q.tasks == [QR.Task(QueueKey(v, l), QR.Producer(0), QR.Queued)]
  {
    s := Init(v, cfg);
    assert ValidRun(s, []) && Exec(s, []) == s && BegunBy([]) == {};
    s := Steps(v, cfg, {}, s, Begin(l));
    assert {} + {l} == {l};
    s := Moves(v, cfg, {l}, s, Look(0));
    s := Moves(v, cfg, {l}, s, Enter(0));
  }

  /** The second joins the same slot. */
  lemma SecondIsAdmitted(v: Versions, cfg: Q.Config, l: Record, r: Record) returns (s: State)
    requires cfg.Valid() && QueueKey(v, l) == QueueKey(v, r)
    ensures CanReach(v, cfg, {l, r}, s) && s.versions == v && s.rendered == {} && s.cache == map[]
    ensures s.jobs == [l, r] && s.attempts == [Attempt(0, false), Attempt(0, false)]
    ensures |s.calls| == 2 && s.calls[1] == Call(r, InQueue(1))
    ensures s.q.cfg == cfg && s.q.sh.permits == cfg.concurrency && |s.q.sh.holders| == 1
    ensures s.q.tasks == [QR.Task(QueueKey(v, r), QR.Producer(0), QR.Queued),
                          QR.Task(QueueKey(v, r), QR.Waiter(0), QR.Fresh)]
  {
    s := FirstIsQueued(v, cfg, l);
    s := Steps(v, cfg, {l}, s, Begin(r));
    assert {l} + {r} == {l, r};
    s := Moves(v, cfg, {l, r}, s, Look(1));
    s := Moves(v, cfg, {l, r}, s, Enter(1));
  }

  /** The first is rendered. */
  lemma FirstIsRendered(v: Versions, cfg: Q.Config, l: Record, r: Record, png: Bytes) returns (s: State)
    requires cfg.Valid() && QueueKey(v, l) == QueueKey(v, r)
    ensures CanReach(v, cfg, {l, r}, s) && s.versions == v && s.rendered == {(l, png)} && s.cache == map[]
    ensures |s.calls| == 2 && s.calls[1] == Call(r, InQueue(1)) && |s.q.sh.holders| == 1
    ensures s.q.tasks == [QR.Task(QueueKey(v, r), QR.Producer(0), QR.Ended(Q.Success(png))),
                          QR.Task(QueueKey(v, r), QR.Waiter(0), QR.Fresh)]
  {
    s := SecondIsAdmitted(v, cfg, l, r);
    s := Moves(v, cfg, {l, r}, s, Queue(QR.Acquire(0)));
    s := Moves(v, cfg, {l, r}, s, Queue(QR.Start(0)));
    s := Moves(v, cfg, {l, r}, s, RenderOk(0, png));
  }

  /** And published to the holder both calls share. */
  lemma FirstIsPublished(v: Versions, cfg: Q.Config, l: Record, r: Record, png: Bytes) returns (s: State)
    requires cfg.Valid() && QueueKey(v, l) == QueueKey(v, r)
    ensures CanReach(v, cfg, {l, r}, s) && s.versions == v && s.rendered == {(l, png)} && s.cache == map[]
    ensures |s.calls| == 2 && s.calls[1] == Call(r, InQueue(1))
    ensures |s.q.tasks| == 2 && s.q.tasks[1] == QR.Task(QueueKey(v, r), QR.Waiter(0), QR.Fresh)
    ensures |s.q.sh.holders| == 1 && s.q.sh.holders[0].result == Some(Q.Success(png))
  {
    s := FirstIsRendered(v, cfg, l, r, png);
    s := Moves(v, cfg, {l, r}, s, Queue(QR.Record(0, 0)));
    s := Moves(v, cfg, {l, r}, s, Queue(QR.Tally(0)));
    s := Moves(v, cfg, {l, r}, s, Queue(QR.Publish(0)));
  }

  lemma SecondReceivesIt(v: Versions, cfg: Q.Config, l: Record, r: Record, png: Bytes) returns (s: State)
    requires cfg.Valid() && QueueKey(v, l) == QueueKey(v, r)
    ensures CanReach(v, cfg, {l, r}, s) && s.versions == v && s.rendered == {(l, png)} && s.cache == map[]
    ensures |s.calls| == 2 && s.calls[1] == Call(r, InQueue(1))
    ensures |s.q.tasks| == 2 && s.q.tasks[1].phase == QR.Returned(Q.Success(png))
  {
    s := FirstIsPublished(v, cfg, l, r, png);
    s := Moves(v, cfg, {l, r}, s, Queue(QR.Arm(1)));
    s := Moves(v, cfg, {l, r}, s, Queue(QR.Check(1)));
  }

  /** Of two records with one queue key, the second can be served, and cached as, the first. */
  lemma SecondIsServedTheFirst(v: Versions, cfg: Q.Config, l: Record, r: Record, png: Bytes) returns (s: State)
    requires cfg.Valid() && QueueKey(v, l) == QueueKey(v, r)
    ensures CanReach(v, cfg, {l, r}, s) && s.versions == v && s.rendered == {(l, png)}
    ensures |s.calls| == 2 && s.calls[1] == Call(r, Served(png))
    ensures CacheKey(v, r) in s.cache && s.cache[CacheKey(v, r)] == png
  {
    s := SecondReceivesIt(v, cfg, l, r, png);
    s := Moves(v, cfg, {l, r}, s, Collect(1));
    s := Moves(v, cfg, {l, r}, s, Handle(1));
  }

  /** Any unsafe match can have a loadout's image cached as its own. */
  lemma UnsafeIdCanBeServedALoadout(v: Versions, cfg: Q.Config, m: Record, png: Bytes)
    requires cfg.Valid() && !SafeRecord(v, m)
    ensures exists s: State, begun: set<Record> :: CanReach(v, cfg, begun, s) && CacheKey(v, m) in s.cache
              && s.cache[CacheKey(v, m)] == png && !DrawnFor(s, CacheKey(v, m), png)
  {
    var l := BadRecordHasGoodDouble(v, m);
    var s := SecondIsServedTheFirst(v, cfg, l, m, png);
    KindsHaveDifferentKeys(v, m, l);
  }

  /** A run that begins no bad record besides `r`. */
  predicate GoodBesides(v: Versions, acts: seq<Action>, r: Record) {
    forall other :: other in BegunBy(acts) && other != r ==> Good(v, other)
  }

  /** A run among good records in which a call with `r` is served an image of something else. */
  ghost predicate Wronged(v: Versions, cfg: Q.Config, acts: seq<Action>, c: nat, r: Record, png: Bytes) {
    && ValidRun(Init(v, cfg), acts) && GoodBesides(v, acts, r)
    && ServedIn(Init(v, cfg), acts, c, r, png) && !Shows(Init(v, cfg), acts, r, png)
  }

  lemma OnlyOtherDrawn(v: Versions, cfg: Q.Config, acts: seq<Action>, l: Record, r: Record, png: Bytes)
    requires ValidRun(Init(v, cfg), acts) && Exec(Init(v, cfg), acts).rendered == {(l, png)} && !SameSubject(l, r)
    ensures !Shows(Init(v, cfg), acts, r, png)
  {
    forall k, m, i, drawn: Record | Origin(Init(v, cfg), acts, k, m, i, drawn, png) ensures !SameSubject(drawn, r) {
      DrawnIsRendered(Init(v, cfg), acts, m, i, drawn, png);
    }
  }

  lemma BadRecordCanBeServedAnother(v: Versions, cfg: Q.Config, r: Record, png: Bytes)
    requires cfg.Valid() && !Good(v, r)
    ensures exists acts: seq<Action>, c: nat :: Wronged(v, cfg, acts, c, r, png)
  {
    var l := BadRecordHasGoodDouble(v, r);
    var s := SecondIsServedTheFirst(v, cfg, l, r, png);
    var acts: seq<Action> :|
      ValidRun(Init(v, cfg), acts) && s == Exec(Init(v, cfg), acts) && BegunBy(acts) == {l, r};
    OnlyOtherDrawn(v, cfg, acts, l, r, png);
    assert Wronged(v, cfg, acts, 1, r, png);
  }

  /**
   What is at stake: of two matches that lack their ids, however different, the second can be served,
   and cached as, the image of the first.
  */
  lemma MatchesWithoutIdsShareOneImage(v: Versions, cfg: Q.Config, first: Record, second: Record, png: Bytes)
    requires cfg.Valid() && first.Match? && second.Match? && first != second
    requires first.matchId.None? && second.matchId.None?
    ensures exists acts: seq<Action>, c: nat ::
              ValidRun(Init(v, cfg), acts) && BegunBy(acts) == {first, second}
              && ServedIn(Init(v, cfg), acts, c, second, png) && !Shows(Init(v, cfg), acts, second, png)
  {
    var s := SecondIsServedTheFirst(v, cfg, first, second, png);
    var acts: seq<Action> :|
      ValidRun(Init(v, cfg), acts) && s == Exec(Init(v, cfg), acts) && BegunBy(acts) == {first, second};
    OnlyOtherDrawn(v, cfg, acts, first, second, png);
    assert ServedIn(Init(v, cfg), acts, 1, second, png);
  }

  /**
   The condition is exact, record by record: a record is good just when no run that begins only good
   records besides it ever serves it an image of something else.
  */
  lemma GoodExactlyWhenNeverWronged(v: Versions, cfg: Q.Config, r: Record)
    requires cfg.Valid()
    ensures Good(v, r) <==> forall acts: seq<Action>, c: nat, png: Bytes :: !Wronged(v, cfg, acts, c, r, png)
  {
    if Good(v, r) {
      forall acts: seq<Action>, c: nat, png: Bytes ensures !Wronged(v, cfg, acts, c, r, png) {
        if ValidRun(Init(v, cfg), acts) && GoodBesides(v, acts, r) && ServedIn(Init(v, cfg), acts, c, r, png) {
          ServedImagesShowTheirSubject(v, cfg, acts, c, r, png);
        }
      }
    } else {
      BadRecordCanBeServedAnother(v, cfg, r, []);
    }
  }

  // ----- attempts -----

  ghost predicate AttemptsOk(s: State) {
    && |s.attempts| == |s.q.tasks|
    && (forall i :: 0 <= i < |s.attempts| ==> AttemptOk(s.attempts[i], s.q.tasks[i]))
  }

  predicate AttemptOk(a: Attempt, t: QR.Task) {
    a.failures <= 2 && (t.phase.Running? ==> a.failures <= 1)
    && (t.phase.Queued? || t.phase.Permitted? ==> a == Attempt(0, false))
  }

  lemma QueueMoveKeepsAttempts(s: State, s': State, a: QR.Action)
    requires AttemptsOk(s) && QR.Enabled(s.q, a) && !a.Call? && s'.q == QR.Next(s.q, a)
    requires |s'.attempts| == |s.attempts|
    requires forall i :: 0 <= i < |s.attempts| && i != a.i ==> s'.attempts[i] == s.attempts[i]
    requires a.i < |s.attempts| && s'.attempts[a.i].failures <= 2
    requires s'.attempts[a.i] == s.attempts[a.i] || a.Finish?
    ensures AttemptsOk(s')
  {
    assert AttemptOk(s.attempts[a.i], s.q.tasks[a.i]);
  }

  lemma StepKeepsAttempts(s: State, a: Action)
    requires AttemptsOk(s) && Enabled(s, a)
    ensures AttemptsOk(Next(s, a))
  {
    var s' := Next(s, a);
    if a.Queue? {
      QueueMoveKeepsAttempts(s, s', a.step);
    } else if a.RenderOk? {
      QueueMoveKeepsAttempts(s, s', QR.Finish(a.i, Q.Done(a.png)));
    } else if a.Expire? {
      QueueMoveKeepsAttempts(s, s', QR.Finish(a.i, Q.TimedOut));
    } else if a.Recover? {
      assert AttemptOk(s.attempts[a.i], s.q.tasks[a.i]);
      if s.attempts[a.i].failures > 0 {
        QueueMoveKeepsAttempts(s, s', QR.Finish(a.i, Q.Errored(a.error)));
      }
    } else if a.RenderErr? {
      assert AttemptOk(s.attempts[a.i], s.q.tasks[a.i]);
    }
  }

  /** Whether an action begins a render of task `i`: its work starts, or its first failure is retried. */
  predicate BeginsRender(s: State, a: Action, i: nat) {
    (a.Queue? && a.step == QR.Start(i))
    || (a.Recover? && a.i == i && i < |s.attempts| && s.attempts[i].failures == 0)
  }

  predicate EndsRender(a: Action, i: nat) {
    (a.RenderOk? || a.RenderErr?) && a.i == i
  }

  /** How many renders of task `i` a run begins, whether or not they come to an end. */
  ghost function RendersBegun(s: State, acts: seq<Action>, i: nat): nat
    requires ValidRun(s, acts)
    decreases |acts|
  {
    if acts == [] then 0
    else (if BeginsRender(s, acts[0], i) then 1 else 0) + RendersBegun(Next(s, acts[0]), acts[1..], i)
  }

  function RendersEnded(acts: seq<Action>, i: nat): nat {
    if acts == [] then 0 else (if EndsRender(acts[0], i) then 1 else 0) + RendersEnded(acts[1..], i)
  }

  /** Renders of task `i` that may still begin: both before its work starts, none once it has ended. */
  function RendersToBegin(s: State, i: nat): nat {
    if i >= |s.attempts| || i >= |s.q.tasks| then 2
    else if s.q.tasks[i].phase.Queued? || s.q.tasks[i].phase.Permitted? then 2
    else if s.q.tasks[i].phase.Running? && s.attempts[i].failures == 0 then 1
    else 0
  }

  function InProgress(s: State, i: nat): nat {
    if i < |s.attempts| && i < |s.q.tasks| && s.q.tasks[i].phase.Running? && !s.attempts[i].recycling then 1 else 0
  }

  lemma QueueMoveUsesRender(s: State, step: QR.Action, i: nat)
    requires AttemptsOk(s) && Enabled(s, Queue(step)) && i < |s.attempts|
    ensures RendersToBegin(Next(s, Queue(step)), i) + (if step == QR.Start(i) then 1 else 0) <= RendersToBegin(s, i)
  {
    assert AttemptOk(s.attempts[i], s.q.tasks[i]);
  }

  lemma RenderMoveUsesRender(s: State, a: Action, i: nat)
    requires AttemptsOk(s) && Enabled(s, a) && (a.RenderOk? || a.RenderErr? || a.Recover? || a.Expire?)
    requires i < |s.attempts|
    ensures RendersToBegin(Next(s, a), i) + (if BeginsRender(s, a, i) then 1 else 0) <= RendersToBegin(s, i)
  {
    assert AttemptOk(s.attempts[i], s.q.tasks[i]);
  }

  lemma CallMoveUsesNoRender(s: State, a: Action, i: nat)
    requires AttemptsOk(s) && Enabled(s, a)
    requires a.Begin? || a.Look? || a.Enter? || a.Collect? || a.Handle? || a.Forget?
    ensures RendersToBegin(Next(s, a), i) <= RendersToBegin(s, i)
  {
  }

  lemma StepUsesRender(s: State, a: Action, i: nat)
    requires AttemptsOk(s) && Enabled(s, a)
    ensures RendersToBegin(Next(s, a), i) + (if BeginsRender(s, a, i) then 1 else 0) <= RendersToBegin(s, i)
  {
    if i >= |s.attempts| {
      NoTaskNoRender(s, a, i);
    } else if a.Queue? {
      QueueMoveUsesRender(s, a.step, i);
    } else if a.RenderOk? || a.RenderErr? || a.Recover? || a.Expire? {
      RenderMoveUsesRender(s, a, i);
    } else {
      CallMoveUsesNoRender(s, a, i);
    }
  }

  lemma NoTaskNoRender(s: State, a: Action, i: nat)
    requires AttemptsOk(s) && Enabled(s, a) && i >= |s.attempts|
    ensures !BeginsRender(s, a, i) && RendersToBegin(s, i) == 2 >= RendersToBegin(Next(s, a), i)
  {
  }

  lemma StepEndsWhatBegan(s: State, a: Action, i: nat)
    requires AttemptsOk(s) && Enabled(s, a)
    ensures (if EndsRender(a, i) then 1 else 0) + InProgress(Next(s, a), i)
         <= (if BeginsRender(s, a, i) then 1 else 0) + InProgress(s, i)
  {
    if i < |s.attempts| {
      assert AttemptOk(s.attempts[i], s.q.tasks[i]);
    }
  }

  lemma {:induction false} RendersAreBounded(s: State, acts: seq<Action>, i: nat)
    requires AttemptsOk(s) && ValidRun(s, acts)
    ensures AttemptsOk(Exec(s, acts))
    ensures RendersBegun(s, acts, i) <= RendersToBegin(s, i)
    ensures RendersEnded(acts, i) + InProgress(Exec(s, acts), i) <= RendersBegun(s, acts, i) + InProgress(s, i)
    decreases |acts|
  {
    if acts != [] {
      StepKeepsAttempts(s, acts[0]);
      StepUsesRender(s, acts[0], i);
      StepEndsWhatBegan(s, acts[0], i);
      RendersAreBounded(Next(s, acts[0]), acts[1..], i);
    }
  }

  /** No queued job begins more than two renders, cut off or not, and none ends that has not begun. */
  lemma AtMostTwoRenders(v: Versions, cfg: Q.Config, acts: seq<Action>, i: nat)
    requires ValidRun(Init(v, cfg), acts)
    ensures RendersEnded(acts, i) <= RendersBegun(Init(v, cfg), acts, i) <= 2
  {
    RendersAreBounded(Init(v, cfg), acts, i);
  }

  // ----- counters -----

  predicate Retried(a: Attempt) {
    a.failures >= 1
  }

  function Failures(a: Attempt): nat {
    a.failures
  }

  /** A call that handled an error text taken for a work timeout. */
  predicate HandledTimeout(c: Call) {
    c.phase.Failed? && IsWorkTimeout(c.phase.message)
  }

  ghost predicate Counted(s: State) {
    && s.renderRetries == Count(s.attempts, Retried)
    && s.browserRecoveries == Sum(s.attempts, Failures) + Count(s.calls, HandledTimeout)
  }

  lemma CallMoveIsCounted(s: State, a: Action, c: nat)
    requires Counted(s) && Enabled(s, a) && (a == Look(c) || a == Enter(c) || a == Collect(c) || a == Handle(c))
    ensures Counted(Next(s, a))
  {
    var s' := Next(s, a);
    CountUpdate(s.calls, c, s'.calls[c], HandledTimeout);
    assert s'.calls == s.calls[c := s'.calls[c]];
    if a.Enter? {
      CountAppend(s.attempts, Attempt(0, false), Retried);
      assert (s.attempts + [Attempt(0, false)])[..|s.attempts|] == s.attempts;
    }
  }

  lemma RenderMoveIsCounted(s: State, a: Action)
    requires Counted(s) && Enabled(s, a) && (a.RenderErr? || a.Recover?)
    ensures Counted(Next(s, a))
  {
    var s' := Next(s, a);
    CountUpdate(s.attempts, a.i, s'.attempts[a.i], Retried);
    SumUpdate(s.attempts, a.i, s'.attempts[a.i], Failures);
    assert s'.attempts == s.attempts[a.i := s'.attempts[a.i]];
  }

  lemma StepKeepsCounted(s: State, a: Action)
    requires Counted(s) && Enabled(s, a)
    ensures Counted(Next(s, a))
  {
    if a.Begin? {
      CountAppend(s.calls, Call(a.record, Looking), HandledTimeout);
    } else if a.Look? || a.Enter? || a.Collect? || a.Handle? {
      CallMoveIsCounted(s, a, a.c);
    } else if a.RenderErr? || a.Recover? {
      RenderMoveIsCounted(s, a);
    }
  }

  lemma {:induction false} RunKeepsCounted(s: State, acts: seq<Action>)
    requires Counted(s) && ValidRun(s, acts)
    ensures Counted(Exec(s, acts))
    decreases |acts|
  {
    if acts != [] {
      StepKeepsCounted(s, acts[0]);
      RunKeepsCounted(Next(s, acts[0]), acts[1..]);
    }
  }

  /**
   The counters are exact: retries count the jobs with a failed first render, and recoveries every
   failed render dealt with plus every call that handled a text taken for a work timeout.
  */
  lemma CountersAreExact(v: Versions, cfg: Q.Config, acts: seq<Action>)
    requires ValidRun(Init(v, cfg), acts)
    ensures var s := Exec(Init(v, cfg), acts);
            && s.renderRetries == Count(s.attempts, Retried)
            && s.browserRecoveries == Sum(s.attempts, Failures) + Count(s.calls, HandledTimeout)
  {
    RunKeepsCounted(Init(v, cfg), acts);
  }

  // ----- telling work timeouts from other errors -----

  lemma ContainsShift(prefix: string, s: string, t: string)
    requires Contains(s, t)
    ensures Contains(prefix + s, t)
  {
    var i :| 0 <= i <= |s| && OccursAt(s, t, i);
    assert (prefix + s)[|prefix| + i..|prefix| + i + |t|] == s[i..i + |t|];
    assert OccursAt(prefix + s, t, |prefix| + i);
  }

  const FAILED := "Render failed:"

  /** The words cannot begin inside the prefix of a failure text. */
  lemma OccursAfterPrefix(e: string, i: int)
    requires OccursAt(FAILED + (" " + e), " exceeded ", i)
    ensures i >= 14 && OccursAt(" " + e, " exceeded ", i - 14)
  {
    var message := FAILED + (" " + e);
    assert message[i..i + 10][0] == ' ' && message[i..i + 10][1] == 'e';
    assert message[i] == ' ' && message[i + 1] == 'e';
    assert message[i..i + 10] == (" " + e)[i - 14..i - 4];
  }

  /**
   `is_work_timeout` reads the error text, so it holds of a queue's own timeout, and also of a failed
   render whose error text says " exceeded " (counting the space that precedes it); no value has one.
  */
  lemma WorkTimeoutIsExactly(cfg: Q.Config, r: Q.WorkResult)
    requires cfg.workLabel == "Render" && !r.Done?
    ensures IsWorkTimeout(Q.Describe(cfg, r).message) <==> r.TimedOut? || Contains(" " + r.error, " exceeded ")
  {
    match r
    case TimedOut =>
      var rest := Digits(cfg.timeoutMs) + "ms";
      assert OccursAt(Q.Describe(cfg, r).message, " exceeded ", 6);
    case Errored(e) =>
      assert Q.Describe(cfg, r).message == FAILED + (" " + e);
      if Contains(" " + e, " exceeded ") {
        ContainsShift(FAILED, " " + e, " exceeded ");
      }
      if Contains(FAILED + (" " + e), " exceeded ") {
        var i :| 0 <= i <= |FAILED + (" " + e)| && OccursAt(FAILED + (" " + e), " exceeded ", i);
        OccursAfterPrefix(e, i);
      }
  }

  /** A refused admission is never taken for a timeout. */
  lemma RefusalIsNotATimeout(cfg: Q.Config)
    requires cfg.workLabel == "Render"
    ensures !IsWorkTimeout(Busy(cfg))
  {
    LacksConcat("The ", cfg.workLabel, 'x');
    LacksConcat("The " + cfg.workLabel, " queue is busy. Try again shortly.", 'x');
    WithoutXNoTimeout(Busy(cfg));
  }

  lemma WithoutXNoTimeout(message: string)
    requires Lacks(message, 'x')
    ensures !IsWorkTimeout(message)
  {
    forall i | 0 <= i <= |message| ensures !OccursAt(message, " exceeded ", i) {
      if i + 10 <= |message| {
        assert message[i..i + 10][2] == message[i + 2];
      }
    }
  }

  /** The busy error callers see is the one the queue refuses with. */
  lemma BusyIsTheQueues(cfg: Q.Config, sh: Q.Shared, key: string)
    requires Q.Admit(cfg, sh, key).1.Refuse?
    ensures Q.Admit(cfg, sh, key).1.message == Busy(cfg)
    ensures Busy(cfg) == "The " + cfg.workLabel + " queue is busy. Try again shortly."
  {
  }

  // ----- keys as they are written -----

  /** A loadout's time is its update time, or else its fetch time; what is missing is written `unknown`. */
  lemma KeysAsWritten(v: Versions, id: string, player: string, loadout: string, time: string, other: Option<string>,
                      body: Bytes)
    ensures QueueKey(v, Match(Some(id), body)) == id && QueueKey(v, Match(None, body)) == "unknown"
    ensures CacheKey(v, Match(Some(id), body)) == "match:" + id + ":summary:v" + v.summary
    ensures CacheKey(v, Loadout(Some(player), Some(loadout), Some(time), other, body))
         == CacheKey(v, Loadout(Some(player), Some(loadout), None, Some(time), body))
         == "loadout:" + player + ":" + loadout + ":" + time + ":v" + v.loadout
    ensures CacheKey(v, Loadout(None, None, None, None, body)) == "loadout:unknown:unknown:unknown:v" + v.loadout
  {
    assert "loadout:" + "unknown" + ":" + "unknown" + ":" + "unknown" + ":v" == "loadout:unknown:unknown:unknown:v";
  }

  /** A new template version is a new key: images drawn with another template are never served. */
  lemma VersionsSeparateKeys(v: Versions, w: Versions, r: Record)
    ensures CacheKey(v, r) == CacheKey(w, r) <==> (if r.Match? then v.summary == w.summary else v.loadout == w.loadout)
  {
    if r.Match? {
      var front := "match:" + r.MatchText() + ":summary:v";
      if front + v.summary == front + w.summary {
        PrefixCancels(front, v.summary, w.summary);
      }
    } else {
      var front := "loadout:" + r.PlayerText() + ":" + r.LoadoutText() + ":" + r.VersionText() + ":v";
      if front + v.loadout == front + w.loadout {
        PrefixCancels(front, v.loadout, w.loadout);
      }
    }
  }
}
