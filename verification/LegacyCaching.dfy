/**
 What the Node service makes of its cache: one read for each call, one write for each image drawn, and
 so every result about the cache's own runs holds inside the service.
*/
module LegacyCaching {
  import opened Basics
  import opened LegacyService
  import C = RenderCache
  import CR = RenderCacheRuns
  import Q = EventQueue
  import QR = EventQueueRuns

  /** What an action does to the cache: a call reads its key, a drawn image is written under its job's. */
  function CacheOps(s: State, a: Action): seq<CR.Op>
    requires Enabled(s, a)
  {
    match a
    case Direct(key, _, now) => [CR.Read(key, now)]
    case ById(key, now, _) => [CR.Read(key, now)]
    case Draw(j, png, now) => [CR.Write(s.q.jobs[j].key, png, now)]
    case _ => []
  }

  ghost function RunOps(s: State, acts: seq<Action>): seq<CR.Op>
    requires ValidRun(s, acts)
    decreases |acts|
  {
    if acts == [] then [] else CacheOps(s, acts[0]) + RunOps(Next(s, acts[0]), acts[1..])
  }

  lemma StepAppliesOps(s: State, a: Action)
    requires Enabled(s, a)
    ensures var ops, s' := CacheOps(s, a), Next(s, a);
            s'.lim == s.lim && s'.cache == if ops == [] then s.cache else CR.Apply(s.lim, s.cache, ops[0])
  {
  }

  lemma ReplayOneMore(lim: C.Limits, before: seq<CR.Op>, op: CR.Op)
    ensures CR.Replay(lim, before + [op]) == CR.Apply(lim, CR.Replay(lim, before), op)
  {
    assert (before + [op])[..|before|] == before;
  }

  lemma StepReplays(s: State, a: Action, before: seq<CR.Op>)
    requires Enabled(s, a) && s.cache == CR.Replay(s.lim, before)
    ensures Next(s, a).lim == s.lim && Next(s, a).cache == CR.Replay(s.lim, before + CacheOps(s, a))
  {
    var ops := CacheOps(s, a);
    StepAppliesOps(s, a);
    if ops == [] {
      assert before + ops == before;
    } else {
      ReplayOneMore(s.lim, before, ops[0]);
      assert before + ops == before + [ops[0]];
    }
  }

  lemma {:induction false} RunReplays(s: State, acts: seq<Action>, before: seq<CR.Op>)
    requires ValidRun(s, acts) && s.cache == CR.Replay(s.lim, before)
    ensures Exec(s, acts).lim == s.lim && Exec(s, acts).cache == CR.Replay(s.lim, before + RunOps(s, acts))
    decreases |acts|
  {
    if acts == [] {
      assert before + [] == before;
    } else {
      var ops := CacheOps(s, acts[0]);
      StepReplays(s, acts[0], before);
      RunReplays(Next(s, acts[0]), acts[1..], before + ops);
      Regroup(before, ops, RunOps(Next(s, acts[0]), acts[1..]));
    }
  }

  lemma Regroup<T>(a: seq<T>, b: seq<T>, c: seq<T>)
    ensures a + b + c == a + (b + c)
  {
  }

  /** Over every run the cache is the replay of the run's reads and writes. */
  lemma CacheIsReplay(lim: C.Limits, cfg: Q.Config, acts: seq<Action>)
    requires ValidRun(Init(lim, cfg), acts)
    ensures Exec(Init(lim, cfg), acts).lim == lim
    ensures Exec(Init(lim, cfg), acts).cache == CR.Replay(lim, RunOps(Init(lim, cfg), acts))
  {
    RunReplays(Init(lim, cfg), acts, []);
    assert [] + RunOps(Init(lim, cfg), acts) == RunOps(Init(lim, cfg), acts);
  }

  /** A call of a key is answered from the cache with this image, or not from the cache at all. */
  ghost predicate AnsweredBy(s: State, a: Action, hit: Option<Bytes>)
    requires Enabled(s, a) && (a.Direct? || a.ById?)
  {
    var calls := Next(s, a).calls;
    && |calls| == |s.calls| + 1
    && calls[|s.calls|].key == a.key
    && (if hit.Some? then calls[|s.calls|].answer == Hit(hit.value) else !calls[|s.calls|].answer.Hit?)
  }

  lemma AnswerIsTheRead(s: State, a: Action)
    requires Enabled(s, a) && (a.Direct? || a.ById?)
    ensures AnsweredBy(s, a, C.Get(s.cache, a.key, a.now).1)
  {
  }

  /** The entry a drawn image leaves. */
  function EntryOf(lim: C.Limits, key: string, png: Bytes, drawn: int): C.Entry {
    C.Entry(key, png, drawn + lim.ttlMs)
  }

  /** From any state, given the operations that made its cache. */
  lemma HitAfterDraw(s: State, before: seq<CR.Op>, draw: Action, after: seq<Action>, call: Action)
    requires s.cache == CR.Replay(s.lim, before) && draw.Draw? && Enabled(s, draw)
    requires ValidRun(Next(s, draw), after) && (call.Direct? || call.ById?) && call.key == s.q.jobs[draw.j].key
    requires C.Admissible(s.lim, draw.png)
    requires var e, ops := EntryOf(s.lim, call.key, draw.png, draw.now), RunOps(Next(s, draw), after);
             forall i :: 0 <= i < |ops| ==> CR.Spares(s.lim, e, ops[i])
    ensures var ops := RunOps(Next(s, draw), after);
            var pre := before + [CR.Write(call.key, draw.png, draw.now)];
            AnsweredBy(Exec(Next(s, draw), after), call,
                       if call.now < draw.now + s.lim.ttlMs && CR.AlwaysFits(s.lim, pre, ops, call.key)
                       then Some(draw.png) else None)
  {
    var e, ops := EntryOf(s.lim, call.key, draw.png, draw.now), RunOps(Next(s, draw), after);
    var pre := before + [CR.Write(call.key, draw.png, draw.now)];
    StepReplays(s, draw, before);
    RunReplays(Next(s, draw), after, pre);
    CR.ReadsUntilExpiry(s.lim, pre, e, ops, call.now);
    AnswerIsTheRead(Exec(Next(s, draw), after), call);
  }

  /**
   End to end: after an image is drawn, a later call of its key, direct or by match id, is answered with
   that image exactly while its lifetime lasts and the budget has held it and everything used since,
   provided no other image of the key was drawn and no call found it expired in between.
  */
  lemma CallsHitWhatWasDrawn(
      lim: C.Limits, cfg: Q.Config, before: seq<Action>, draw: Action, after: seq<Action>, call: Action)
    requires ValidRun(Init(lim, cfg), before) && draw.Draw? && Enabled(Exec(Init(lim, cfg), before), draw)
    requires ValidRun(Next(Exec(Init(lim, cfg), before), draw), after)
    requires C.Admissible(lim, draw.png) && (call.Direct? || call.ById?)
    requires var s := Exec(Init(lim, cfg), before);
             && call.key == s.q.jobs[draw.j].key
             && var e, ops := EntryOf(lim, call.key, draw.png, draw.now), RunOps(Next(s, draw), after);
                forall i :: 0 <= i < |ops| ==> CR.Spares(lim, e, ops[i])
    ensures var s := Exec(Init(lim, cfg), before);
            var ops := RunOps(Next(s, draw), after);
            var pre := RunOps(Init(lim, cfg), before) + [CR.Write(call.key, draw.png, draw.now)];
            AnsweredBy(Exec(Next(s, draw), after), call,
                       if call.now < draw.now + lim.ttlMs && CR.AlwaysFits(lim, pre, ops, call.key)
                       then Some(draw.png) else None)
  {
    CacheIsReplay(lim, cfg, before);
    HitAfterDraw(Exec(Init(lim, cfg), before), RunOps(Init(lim, cfg), before), draw, after, call);
  }
}
