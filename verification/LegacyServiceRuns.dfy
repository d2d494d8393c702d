/**
 What every run of the Node render service guarantees: which record an image was drawn on, one lookup
 for each key, at most two attempts for each job, and exact counters.
*/
module LegacyServiceRuns {
  import opened Basics
  import opened Counting
  import opened LegacyService
  import C = RenderCache
  import Q = EventQueue
  import QR = EventQueueRuns

  /** What a call's promise has settled with, if it has. */
  function OutcomeOf(s: State, c: nat): Option<Q.Outcome>
    requires c < |s.calls|
  {
    match s.calls[c].answer
    case Hit(png) => Some(Q.Resolved(png))
    case OnJob(j) => if j < |s.q.sh.promises| then s.q.sh.promises[j] else None
    case OnLookup(p) => if p < |s.lookups| && s.lookups[p].phase.Ended? then Some(s.lookups[p].phase.outcome) else None
    case Busy => Some(Q.Rejected(BUSY))
  }

  // ----- the record behind an image -----

  lemma InitIsFresh(lim: C.Limits, cfg: Q.Config)
    ensures var s := Init(lim, cfg); Inv(s) && s.works == [] && s.rendered == {}
  {
  }

  /** The action hands in `r` under `key`: a direct call, or a lookup of that key that found `r`. */
  ghost predicate HandsIn(s: State, a: Action, key: string, r: Record) {
    (a.Direct? && a.key == key && a.record == r)
    || (a.LookupOk? && a.p < |s.lookups| && s.lookups[a.p].key == key && a.record == r)
  }

  /** Action `k` hands in `r` under `key`, and it is this action that creates job `j`. */
  ghost predicate Admits(s0: State, acts: seq<Action>, k: nat, j: nat, key: string, r: Record)
    requires ValidRun(s0, acts)
  {
    && k < |acts| && HandsIn(StateAt(s0, acts, k), acts[k], key, r)
    && |StateAt(s0, acts, k).works| == j && |StateAt(s0, acts, k + 1).works| == j + 1
  }

  /** Action `m` ends an attempt of job `j`, made on the record `r`, with the image `png`. */
  ghost predicate Draws(s0: State, acts: seq<Action>, m: nat, j: nat, r: Record, png: Bytes)
    requires ValidRun(s0, acts)
  {
    && m < |acts| && acts[m].Draw? && acts[m].j == j && acts[m].png == png
    && j < |StateAt(s0, acts, m).works| && StateAt(s0, acts, m).works[j].record == r
  }

  /** The whole way from a record to an image: it was handed in, it made the job, and the job drew it. */
  ghost predicate Traced(s0: State, acts: seq<Action>, k: nat, m: nat, j: nat, key: string, r: Record, png: Bytes)
    requires ValidRun(s0, acts)
  {
    k < m && Admits(s0, acts, k, j, key, r) && Draws(s0, acts, m, j, r, png)
  }

  ghost predicate DrawnInRun(s0: State, acts: seq<Action>, key: string, png: Bytes)
    requires ValidRun(s0, acts)
  {
    exists k: nat, m: nat, j: nat, r: Record :: Traced(s0, acts, k, m, j, key, r, png)
  }

  /** A step admits at most one job, on the record it hands in, and leaves the others' keys and records. */
  ghost predicate KeepsJobs(s: State, s': State) {
    && |s.works| <= |s'.works| && |s.q.jobs| <= |s'.q.jobs|
    && (forall j :: 0 <= j < |s.works| ==> s'.works[j].record == s.works[j].record)
    && (forall j :: 0 <= j < |s.q.jobs| ==> s'.q.jobs[j].key == s.q.jobs[j].key)
  }

  lemma SubmitAdmits(s: State, key: string, record: Record)
    requires QR.Inv(s.q) && |s.works| == |s.q.jobs|
    ensures var s' := Submit(s, key, record).0;
            && KeepsJobs(s, s') && |s'.works| == |s'.q.jobs| <= |s.works| + 1
            && (key in s.q.sh.inFlight ==> s'.works == s.works)
            && (|s'.works| > |s.works| ==> s'.q.jobs[|s.works|].key == key && s'.works[|s.works|].record == record)
  {
    CallLandsOnKey(s.q, key);
  }

  /** The outcome of a step for the jobs: at most one more, made on the record handed in. */
  ghost predicate JobsStep(s: State, a: Action, s': State) {
    && KeepsJobs(s, s') && |s'.works| == |s'.q.jobs| <= |s.works| + 1
    && (|s'.works| > |s.works| ==> HandsIn(s, a, s'.q.jobs[|s.works|].key, s'.works[|s.works|].record))
  }

  lemma DirectKeepsJobs(s: State, a: Action)
    requires QR.Inv(s.q) && |s.works| == |s.q.jobs| && a.Direct?
    ensures JobsStep(s, a, Next(s, a))
  {
    var (looked, hit) := LookUp(s, a.key, a.now);
    SubmitAdmits(looked, a.key, a.record);
    var s' := if hit.Some? then looked else Submit(looked, a.key, a.record).0;
    assert Next(s, a).works == s'.works && Next(s, a).q == s'.q;
  }

  lemma LookupOkKeepsJobs(s: State, a: Action)
    requires QR.Inv(s.q) && |s.works| == |s.q.jobs| && Enabled(s, a) && a.LookupOk?
    ensures JobsStep(s, a, Next(s, a))
  {
    SubmitAdmits(s, s.lookups[a.p].key, a.record);
    var s' := Submit(s, s.lookups[a.p].key, a.record).0;
    assert Next(s, a).works == s'.works && Next(s, a).q == s'.q;
  }

  lemma OtherMovesKeepJobs(s: State, a: Action)
    requires |s.works| == |s.q.jobs| && Enabled(s, a) && !a.Direct? && !a.LookupOk?
    ensures JobsStep(s, a, Next(s, a))
  {
    StepExtends(s, a);
    assert |Next(s, a).q.jobs| == |s.q.jobs|;
  }

  lemma StepKeepsJobs(s: State, a: Action)
    requires QR.Inv(s.q) && |s.works| == |s.q.jobs| && Enabled(s, a)
    ensures JobsStep(s, a, Next(s, a))
  {
    if a.Direct? {
      DirectKeepsJobs(s, a);
    } else if a.LookupOk? {
      LookupOkKeepsJobs(s, a);
    } else {
      OtherMovesKeepJobs(s, a);
    }
  }

  lemma AdmitsInPrefix(s0: State, acts: seq<Action>, n: nat, k: nat, j: nat, key: string, r: Record)
    requires ValidRun(s0, acts) && n <= |acts| && ValidRun(s0, acts[..n]) && Admits(s0, acts[..n], k, j, key, r)
    ensures Admits(s0, acts, k, j, key, r)
  {
    StateAtPrefix(s0, acts, n, k);
    StateAtPrefix(s0, acts, n, k + 1);
  }

  lemma AdmittedLast(s0: State, acts: seq<Action>, j: nat)
    requires acts != [] && ValidRun(s0, acts) && |StateAt(s0, acts, |acts| - 1).works| == j < |Exec(s0, acts).works|
    requires JobsStep(StateAt(s0, acts, |acts| - 1), acts[|acts| - 1], Exec(s0, acts))
    ensures Admits(s0, acts, |acts| - 1, j, Exec(s0, acts).q.jobs[j].key, Exec(s0, acts).works[j].record)
  {
    assert acts[..|acts|] == acts;
  }

  lemma LastStep(s0: State, acts: seq<Action>)
    requires Inv(s0) && ValidRun(s0, acts) && acts != []
    ensures var before := StateAt(s0, acts, |acts| - 1);
            && ValidRun(s0, acts[..|acts| - 1]) && before == Exec(s0, acts[..|acts| - 1]) && Inv(before)
            && Enabled(before, acts[|acts| - 1]) && Exec(s0, acts) == Next(before, acts[|acts| - 1])
  {
    var before, a := BeforeLast(s0, acts);
    RunKeepsInv(s0, acts[..|acts| - 1]);
  }

  lemma LastStepKeepsJobs(s0: State, acts: seq<Action>)
    requires Inv(s0) && ValidRun(s0, acts) && acts != []
    ensures ValidRun(s0, acts[..|acts| - 1]) && StateAt(s0, acts, |acts| - 1) == Exec(s0, acts[..|acts| - 1])
    ensures JobsStep(StateAt(s0, acts, |acts| - 1), acts[|acts| - 1], Exec(s0, acts))
  {
    LastStep(s0, acts);
    StepKeepsJobs(StateAt(s0, acts, |acts| - 1), acts[|acts| - 1]);
  }

  lemma EmptyRun(s0: State, acts: seq<Action>)
    requires ValidRun(s0, acts) && acts == []
    ensures Exec(s0, acts) == s0
  {
  }

  lemma DrawsInPrefix(s0: State, acts: seq<Action>, n: nat, m: nat, j: nat, r: Record, png: Bytes)
    requires ValidRun(s0, acts) && n <= |acts| && ValidRun(s0, acts[..n]) && Draws(s0, acts[..n], m, j, r, png)
    ensures Draws(s0, acts, m, j, r, png)
  {
    StateAtPrefix(s0, acts, n, m);
  }

  /** Every job was created by an action that handed in its record under its key. */
  lemma {:induction false} JobWasAdmitted(s0: State, acts: seq<Action>, j: nat) returns (k: nat)
    requires Inv(s0) && s0.works == [] && ValidRun(s0, acts) && j < |Exec(s0, acts).works|
    ensures j < |Exec(s0, acts).q.jobs|
    ensures Admits(s0, acts, k, j, Exec(s0, acts).q.jobs[j].key, Exec(s0, acts).works[j].record)
    decreases |acts|
  {
    var n := |acts|;
    if acts == [] {
      EmptyRun(s0, acts);
      assert false;
    } else {
      LastStepKeepsJobs(s0, acts);
      var before := StateAt(s0, acts, n - 1);
      if j < |before.works| {
        k := JobWasAdmitted(s0, acts[..n - 1], j);
        AdmitsInPrefix(s0, acts, n - 1, k, j, before.q.jobs[j].key, before.works[j].record);
      } else {
        k := n - 1;
        AdmittedLast(s0, acts, j);
      }
    }
  }

  /** The same, of a job whose key is `key`. */
  ghost predicate DrawsUnder(s0: State, acts: seq<Action>, m: nat, j: nat, key: string, r: Record, png: Bytes)
    requires ValidRun(s0, acts)
  {
    && Draws(s0, acts, m, j, r, png)
    && j < |StateAt(s0, acts, m).q.jobs| && StateAt(s0, acts, m).q.jobs[j].key == key
  }

  lemma DrawsUnderInPrefix(s0: State, acts: seq<Action>, n: nat, m: nat, j: nat, key: string, r: Record, png: Bytes)
    requires ValidRun(s0, acts) && n <= |acts| && ValidRun(s0, acts[..n])
    requires DrawsUnder(s0, acts[..n], m, j, key, r, png)
    ensures DrawsUnder(s0, acts, m, j, key, r, png)
  {
    StateAtPrefix(s0, acts, n, m);
  }

  lemma StepRenders(s: State, a: Action, key: string, r: Record, png: Bytes)
    requires Enabled(s, a) && (key, r, png) in Next(s, a).rendered && (key, r, png) !in s.rendered
    ensures a.Draw? && a.png == png && a.j < |s.works| && a.j < |s.q.jobs|
    ensures s.works[a.j].record == r && s.q.jobs[a.j].key == key
  {
  }

  lemma LastStepRenders(s0: State, acts: seq<Action>, key: string, r: Record, png: Bytes) returns (drew: bool, j: nat)
    requires ValidRun(s0, acts) && acts != [] && (key, r, png) in Exec(s0, acts).rendered
    ensures ValidRun(s0, acts[..|acts| - 1])
    ensures !drew ==> (key, r, png) in Exec(s0, acts[..|acts| - 1]).rendered
    ensures drew ==> DrawsUnder(s0, acts, |acts| - 1, j, key, r, png)
  {
    var before, a := BeforeLast(s0, acts);
    drew, j := (key, r, png) !in before.rendered, 0;
    if drew {
      StepRenders(before, a, key, r, png);
      j := a.j;
    }
  }

  lemma BeforeLast(s0: State, acts: seq<Action>) returns (before: State, a: Action)
    requires ValidRun(s0, acts) && acts != []
    ensures a == acts[|acts| - 1] && before == StateAt(s0, acts, |acts| - 1)
    ensures ValidRun(s0, acts[..|acts| - 1]) && before == Exec(s0, acts[..|acts| - 1])
    ensures Enabled(before, a) && Next(before, a) == Exec(s0, acts)
  {
    assert acts[..|acts|] == acts;
    StateAtStep(s0, acts, |acts| - 1);
    RunSplits(s0, acts, |acts| - 1);
    before, a := StateAt(s0, acts, |acts| - 1), acts[|acts| - 1];
  }

  /** Every image on record came from an attempt of a job of its key, on that job's record. */
  lemma {:induction false} RenderedWasDrawn(s0: State, acts: seq<Action>, key: string, r: Record, png: Bytes)
    returns (m: nat, j: nat)
    requires s0.rendered == {} && ValidRun(s0, acts) && (key, r, png) in Exec(s0, acts).rendered
    ensures DrawsUnder(s0, acts, m, j, key, r, png)
    decreases |acts|
  {
    assert acts != [];
    var drew;
    drew, j := LastStepRenders(s0, acts, key, r, png);
    if drew {
      m := |acts| - 1;
    } else {
      m, j := RenderedWasDrawn(s0, acts[..|acts| - 1], key, r, png);
      DrawsUnderInPrefix(s0, acts, |acts| - 1, m, j, key, r, png);
    }
  }

  lemma DrawnIsDrawnInRun(s0: State, acts: seq<Action>, key: string, png: Bytes)
    requires Inv(s0) && s0.works == [] && s0.rendered == {} && ValidRun(s0, acts)
    requires Drawn(Exec(s0, acts).rendered, key, png)
    ensures DrawnInRun(s0, acts, key, png)
  {
    var r: Record :| (key, r, png) in Exec(s0, acts).rendered;
    var m, j := RenderedWasDrawn(s0, acts, key, r, png);
    RunSplits(s0, acts, m);
    var k := JobWasAdmitted(s0, acts[..m], j);
    AdmitsInPrefix(s0, acts, m, k, j, key, r);
    assert Traced(s0, acts, k, m, j, key, r, png);
  }

  /**
   Every image in the cache, and every image a call resolves with, was drawn, in this run, by a job
   that a direct call or a finished lookup of that very key created, and on the record it handed in,
   whatever calls, timeouts and late renders the run mixes.
  */
  lemma ImagesBelongToTheirKey(lim: C.Limits, cfg: Q.Config, acts: seq<Action>)
    requires ValidRun(Init(lim, cfg), acts)
    ensures var s := Exec(Init(lim, cfg), acts);
            && (forall key :: C.Find(s.cache.entries, key).Some? ==>
                  DrawnInRun(Init(lim, cfg), acts, key, C.Find(s.cache.entries, key).value.value))
            && (forall c :: 0 <= c < |s.calls| && OutcomeOf(s, c).Some? && OutcomeOf(s, c).value.Resolved? ==>
                  DrawnInRun(Init(lim, cfg), acts, s.calls[c].key, OutcomeOf(s, c).value.value))
  {
    InitIsFresh(lim, cfg);
    var s0 := Init(lim, cfg);
    var s := Exec(s0, acts);
    RunKeepsInv(s0, acts);
    forall key | C.Find(s.cache.entries, key).Some?
      ensures DrawnInRun(s0, acts, key, C.Find(s.cache.entries, key).value.value)
    {
      WithoutKeepsDrawn(s.cache.entries, key, s.rendered);
      DrawnIsDrawnInRun(s0, acts, key, C.Find(s.cache.entries, key).value.value);
    }
    forall c | 0 <= c < |s.calls| && OutcomeOf(s, c).Some? && OutcomeOf(s, c).value.Resolved?
      ensures DrawnInRun(s0, acts, s.calls[c].key, OutcomeOf(s, c).value.value)
    {
      CallIsDrawn(s, c);
      DrawnIsDrawnInRun(s0, acts, s.calls[c].key, OutcomeOf(s, c).value.value);
    }
  }

  /** A job keeps the record it was created with, so later records handed in under its key are ignored. */
  lemma {:induction false} RecordIsFinal(s: State, acts: seq<Action>, j: nat)
    requires Inv(s) && ValidRun(s, acts) && j < |s.works|
    ensures j < |Exec(s, acts).works| && Exec(s, acts).works[j].record == s.works[j].record
    decreases |acts|
  {
    if acts != [] {
      StepKeepsInv(s, acts[0]);
      StepKeepsJobs(s, acts[0]);
      RecordIsFinal(Next(s, acts[0]), acts[1..], j);
    }
  }

  lemma {:induction false} WorksOnlyGrow(s: State, acts: seq<Action>)
    requires ValidRun(s, acts)
    ensures |s.works| <= |Exec(s, acts).works|
    decreases |acts|
  {
    if acts != [] {
      WorksOnlyGrow(Next(s, acts[0]), acts[1..]);
    }
  }

  lemma WorksGrowBetween(s0: State, acts: seq<Action>, k: nat, m: nat)
    requires ValidRun(s0, acts) && k <= m <= |acts|
    ensures |StateAt(s0, acts, k).works| <= |StateAt(s0, acts, m).works|
  {
    RunSplits(s0, acts, m);
    RunSplits(s0, acts[..m], k);
    StateAtPrefix(s0, acts, m, k);
    WorksOnlyGrow(StateAt(s0, acts, k), acts[..m][k..]);
  }

  /** The job's work has won this image, or the job has resolved with it. */
  ghost predicate HasImage(s: State, j: nat, png: Bytes) {
    && j < |s.works| && j < |s.q.jobs|
    && (s.works[j].phase == Won(png)
        || (!s.q.jobs[j].phase.Open? && s.q.jobs[j].phase.outcome == Q.Resolved(png)))
  }

  lemma SubmitGivesNoImage(s: State, key: string, record: Record, j: nat, png: Bytes)
    requires QR.Inv(s.q) && |s.works| == |s.q.jobs| && HasImage(Submit(s, key, record).0, j, png)
    ensures HasImage(s, j, png)
  {
    CallLandsOnKey(s.q, key);
  }

  lemma CallGivesNoImage(s: State, a: Action, j: nat, png: Bytes)
    requires QR.Inv(s.q) && |s.works| == |s.q.jobs| && Enabled(s, a) && (a.Direct? || a.LookupOk?)
    requires HasImage(Next(s, a), j, png)
    ensures HasImage(s, j, png)
  {
    if a.Direct? {
      var (looked, hit) := LookUp(s, a.key, a.now);
      if hit.None? {
        assert HasImage(Submit(looked, a.key, a.record).0, j, png);
        SubmitGivesNoImage(looked, a.key, a.record, j, png);
      }
    } else {
      assert HasImage(Submit(s, s.lookups[a.p].key, a.record).0, j, png);
      SubmitGivesNoImage(s, s.lookups[a.p].key, a.record, j, png);
    }
  }

  lemma QueueMoveGivesNoImage(s: State, a: Action, j: nat, png: Bytes)
    requires Enabled(s, a) && (a.Finish? || a.Timeout? || a.Finalize?) && HasImage(Next(s, a), j, png)
    ensures HasImage(s, j, png)
  {
  }

  lemma StepGivesImageByDrawing(s: State, a: Action, j: nat, png: Bytes)
    requires Inv(s) && Enabled(s, a) && HasImage(Next(s, a), j, png)
    ensures HasImage(s, j, png) || (a.Draw? && a.j == j && a.png == png && j < |s.works|)
  {
    if a.Direct? || a.LookupOk? {
      CallGivesNoImage(s, a, j, png);
    } else if a.Finish? || a.Timeout? || a.Finalize? {
      QueueMoveGivesNoImage(s, a, j, png);
    } else {
      assert Next(s, a).q == s.q;
    }
  }

  lemma LastStepGivesImageByDrawing(s0: State, acts: seq<Action>, j: nat, png: Bytes)
    requires Inv(s0) && ValidRun(s0, acts) && acts != [] && HasImage(Exec(s0, acts), j, png)
    ensures HasImage(StateAt(s0, acts, |acts| - 1), j, png)
         || (j < |StateAt(s0, acts, |acts| - 1).works|
             && Draws(s0, acts, |acts| - 1, j, StateAt(s0, acts, |acts| - 1).works[j].record, png))
  {
    LastStep(s0, acts);
    StepGivesImageByDrawing(StateAt(s0, acts, |acts| - 1), acts[|acts| - 1], j, png);
  }

  /** The last action of a run drew the job's image, or the job had it before, on the same record. */
  lemma LastStepOfImage(s0: State, acts: seq<Action>, j: nat, png: Bytes) returns (drew: bool)
    requires Inv(s0) && ValidRun(s0, acts) && acts != [] && HasImage(Exec(s0, acts), j, png)
    ensures ValidRun(s0, acts[..|acts| - 1])
    ensures drew ==> Draws(s0, acts, |acts| - 1, j, Exec(s0, acts).works[j].record, png)
    ensures !drew ==> var before := Exec(s0, acts[..|acts| - 1]);
                      HasImage(before, j, png) && before.works[j].record == Exec(s0, acts).works[j].record
  {
    LastStepKeepsJobs(s0, acts);
    LastStepGivesImageByDrawing(s0, acts, j, png);
    drew := !HasImage(StateAt(s0, acts, |acts| - 1), j, png);
  }

  lemma NoImageAtFirst(s0: State, acts: seq<Action>, j: nat, png: Bytes)
    requires s0.works == [] && ValidRun(s0, acts) && HasImage(Exec(s0, acts), j, png)
    ensures acts != []
  {
  }

  /** The image a job resolves with came from an attempt of that job, on its own record. */
  lemma {:induction false} JobDrewItsImage(s0: State, acts: seq<Action>, j: nat, png: Bytes) returns (m: nat)
    requires Inv(s0) && s0.works == [] && ValidRun(s0, acts) && HasImage(Exec(s0, acts), j, png)
    ensures Draws(s0, acts, m, j, Exec(s0, acts).works[j].record, png)
    decreases |acts|
  {
    NoImageAtFirst(s0, acts, j, png);
    var drew := LastStepOfImage(s0, acts, j, png);
    if drew {
      m := |acts| - 1;
    } else {
      m := JobDrewItsImage(s0, acts[..|acts| - 1], j, png);
      DrawsInPrefix(s0, acts, |acts| - 1, m, j, Exec(s0, acts).works[j].record, png);
    }
  }

  lemma PromiseIsImage(s: State, j: nat, png: Bytes)
    requires QR.Inv(s.q) && WorksOk(s) && j < |s.q.sh.promises| && s.q.sh.promises[j] == Some(Q.Resolved(png))
    ensures HasImage(s, j, png)
  {
  }

  /** The job a direct call or a finished lookup is given. */
  ghost predicate LandsOn(s: State, a: Action, j: nat) {
    Enabled(s, a)
    && ((a.Direct? && |Next(s, a).calls| > 0 && Next(s, a).calls[|Next(s, a).calls| - 1].answer == OnJob(j))
        || (a.LookupOk? && Next(s, a).lookups[a.p].phase == Drawing(j)))
  }

  lemma LandingIsOnKey(s: State, a: Action, j: nat)
    requires Inv(s) && LandsOn(s, a, j) && j < |s.works|
    ensures HandsIn(s, a, s.q.jobs[j].key, a.record)
  {
    if a.Direct? {
      DirectLandsOnKey(s, a, j);
    } else {
      SubmitLandsOnKey(s, s.lookups[a.p].key, a.record);
    }
  }

  lemma SubmitLandsOnKey(s: State, key: string, record: Record)
    requires QR.Inv(s.q) && |s.works| == |s.q.jobs|
    ensures var job := Submit(s, key, record).1;
            job.Some? && job.value < |s.works| ==> s.q.jobs[job.value].key == key
  {
    CallLandsOnKey(s.q, key);
  }

  lemma DirectLandsOnKey(s: State, a: Action, j: nat)
    requires QR.Inv(s.q) && |s.works| == |s.q.jobs| && a.Direct? && LandsOn(s, a, j) && j < |s.works|
    ensures s.q.jobs[j].key == a.key
  {
    var (looked, hit) := LookUp(s, a.key, a.now);
    SubmitLandsOnKey(looked, a.key, a.record);
    assert Submit(looked, a.key, a.record).1 == Some(j);
  }

  /** Action `k` hands in a record under `key`, but lands on a job that an earlier action made. */
  ghost predicate Joins(s0: State, acts: seq<Action>, k: nat, j: nat)
    requires ValidRun(s0, acts)
  {
    k < |acts| && LandsOn(StateAt(s0, acts, k), acts[k], j) && j < |StateAt(s0, acts, k).works|
  }

  /** The record handed in by the action that made job `j`, before action `k`, is what gave `png`. */
  ghost predicate DrawnForFirst(s0: State, acts: seq<Action>, k: nat, j: nat, png: Bytes)
    requires ValidRun(s0, acts)
  {
    && k < |acts| && (acts[k].Direct? || acts[k].LookupOk?)
    && exists first: nat, m: nat, key: string, r: Record ::
      first < k && Traced(s0, acts, first, m, j, key, r, png)
      && HandsIn(StateAt(s0, acts, k), acts[k], key, acts[k].record)
  }

  lemma FirstOfJob(s0: State, acts: seq<Action>, k: nat, j: nat, m: nat, png: Bytes) returns (first: nat)
    requires Inv(s0) && s0.works == [] && ValidRun(s0, acts) && k <= |acts|
    requires j < |StateAt(s0, acts, k).works| && j < |StateAt(s0, acts, k).q.jobs|
    requires Draws(s0, acts, m, j, StateAt(s0, acts, k).works[j].record, png)
    ensures first < k
    ensures var before := StateAt(s0, acts, k);
            Traced(s0, acts, first, m, j, before.q.jobs[j].key, before.works[j].record, png)
  {
    var before := StateAt(s0, acts, k);
    RunSplits(s0, acts, k);
    first := JobWasAdmitted(s0, acts[..k], j);
    AdmitsInPrefix(s0, acts, k, first, j, before.q.jobs[j].key, before.works[j].record);
    if m <= first {
      WorksGrowBetween(s0, acts, m, first);
    }
  }

  lemma JoinedJobKeepsFirstRecord(s0: State, acts: seq<Action>, k: nat, j: nat, png: Bytes)
    requires Inv(s0) && s0.works == [] && ValidRun(s0, acts) && Joins(s0, acts, k, j)
    requires HasImage(Exec(s0, acts), j, png)
    ensures DrawnForFirst(s0, acts, k, j, png)
  {
    RunSplits(s0, acts, k);
    RunKeepsInv(s0, acts[..k]);
    var before := StateAt(s0, acts, k);
    RecordIsFinal(before, acts[k..], j);
    var m := JobDrewItsImage(s0, acts, j, png);
    var first := FirstOfJob(s0, acts, k, j, m, png);
    LandingIsOnKey(before, acts[k], j);
  }

  /**
   A second caller of a key whose job is under way shares that job, and its own record is ignored:
   whatever image the job resolves with was drawn on the record the first caller handed in.
  */
  lemma SharedJobIgnoresLaterRecords(lim: C.Limits, cfg: Q.Config, acts: seq<Action>, k: nat, j: nat, png: Bytes)
    requires ValidRun(Init(lim, cfg), acts) && Joins(Init(lim, cfg), acts, k, j)
    requires var s := Exec(Init(lim, cfg), acts); j < |s.q.sh.promises| && s.q.sh.promises[j] == Some(Q.Resolved(png))
    ensures DrawnForFirst(Init(lim, cfg), acts, k, j, png)
  {
    InitIsFresh(lim, cfg);
    var s0 := Init(lim, cfg);
    RunKeepsInv(s0, acts);
    PromiseIsImage(Exec(s0, acts), j, png);
    JoinedJobKeepsFirstRecord(s0, acts, k, j, png);
  }

  lemma CallIsDrawn(s: State, c: nat)
    requires Inv(s) && c < |s.calls| && OutcomeOf(s, c).Some? && OutcomeOf(s, c).value.Resolved?
    ensures Drawn(s.rendered, s.calls[c].key, OutcomeOf(s, c).value.value)
  {
    assert CallOk(s, s.calls[c]);
    if s.calls[c].answer.OnJob? {
      ResolvedJobIsDrawn(s, s.calls[c].answer.job);
    } else if s.calls[c].answer.OnLookup? {
      assert LookupSound(s, s.lookups[s.calls[c].answer.lookup]);
    }
  }

  /** No key is looked up twice at once, and the map names exactly the lookups that have not ended. */
  lemma OneLookupPerKey(s: State, p: nat, o: nat)
    requires Reachable(s) && p < |s.lookups| && o < |s.lookups|
    requires !s.lookups[p].phase.Ended? && !s.lookups[o].phase.Ended? && s.lookups[p].key == s.lookups[o].key
    ensures p == o && s.lookups[p].key in s.inFlight && s.inFlight[s.lookups[p].key] == p
  {
    ReachableInv(s);
  }

  // ----- renders in progress -----

  /** The work has begun and has neither an image nor an error yet: it is rendering or restarting the browser. */
  predicate InProgress(w: Work) {
    w.phase.Trying? || w.phase.Recycling?
  }

  predicate HoldsSlot(w: Work) {
    InProgress(w) && !w.aborted
  }

  /** Work not begun, or in progress in time, belongs to an open job; in progress, to a started one. */
  ghost predicate SlotOk(s: State, j: nat)
    requires j < |s.works| && j < |s.q.jobs|
  {
    && (s.works[j].phase.Unstarted? ==> s.q.jobs[j].phase.Open? && !s.works[j].aborted)
    && (HoldsSlot(s.works[j]) ==> s.q.jobs[j].phase.Open? && j < |s.q.starts|)
  }

  ghost predicate SlotsHeld(s: State) {
    |s.works| == |s.q.jobs| && forall j :: 0 <= j < |s.works| ==> SlotOk(s, j)
  }

  lemma QueueOnlyStarts(q: QR.State, a: QR.Action)
    requires QR.Enabled(q, a)
    ensures |q.starts| <= |QR.Next(q, a).starts|
  {
  }

  lemma SubmitKeepsSlots(s: State, key: string, record: Record)
    requires QR.Inv(s.q) && SlotsHeld(s)
    ensures SlotsHeld(Submit(s, key, record).0)
  {
    var s' := Submit(s, key, record).0;
    CallLandsOnKey(s.q, key);
    QueueOnlyStarts(s.q, QR.Call(key));
    forall j | 0 <= j < |s'.works| ensures SlotOk(s', j) {
      if j < |s.works| {
        assert SlotOk(s, j);
      }
    }
  }

  lemma SameSlots(s: State, s': State)
    requires SlotsHeld(s) && s'.q == s.q && s'.works == s.works
    ensures SlotsHeld(s')
  {
    forall j | 0 <= j < |s'.works| ensures SlotOk(s', j) {
      assert SlotOk(s, j);
    }
  }

  lemma CallMoveKeepsSlots(s: State, a: Action)
    requires QR.Inv(s.q) && SlotsHeld(s) && Enabled(s, a) && (a.Direct? || a.LookupOk?)
    ensures SlotsHeld(Next(s, a))
  {
    if a.Direct? {
      var (looked, hit) := LookUp(s, a.key, a.now);
      SameSlots(s, looked);
      SubmitKeepsSlots(looked, a.key, a.record);
      SameSlots(if hit.Some? then looked else Submit(looked, a.key, a.record).0, Next(s, a));
    } else {
      SubmitKeepsSlots(s, s.lookups[a.p].key, a.record);
      SameSlots(Submit(s, s.lookups[a.p].key, a.record).0, Next(s, a));
    }
  }

  lemma WorkMoveKeepsSlots(s: State, a: Action)
    requires QR.Inv(s.q) && SlotsHeld(s) && Enabled(s, a) && (a.Begin? || a.Draw? || a.Break? || a.Recover?)
    ensures SlotsHeld(Next(s, a))
  {
    var s' := Next(s, a);
    QR.YoungestAreWaiting(s.q);
    forall j | 0 <= j < |s'.works| ensures SlotOk(s', j) {
      assert SlotOk(s, j);
    }
  }

  lemma QueueMoveKeepsSlots(s: State, a: Action)
    requires SlotsHeld(s) && Enabled(s, a) && (a.Finish? || a.Timeout? || a.Finalize?)
    ensures SlotsHeld(Next(s, a))
  {
    var s' := Next(s, a);
    QueueOnlyStarts(s.q, QueueStep(s, a));
    forall j | 0 <= j < |s'.works| ensures SlotOk(s', j) {
      assert SlotOk(s, j);
    }
  }

  lemma StepKeepsSlots(s: State, a: Action)
    requires QR.Inv(s.q) && SlotsHeld(s) && Enabled(s, a)
    ensures SlotsHeld(Next(s, a))
  {
    if a.Direct? || a.LookupOk? {
      CallMoveKeepsSlots(s, a);
    } else if a.Begin? || a.Draw? || a.Break? || a.Recover? {
      WorkMoveKeepsSlots(s, a);
    } else if a.Finish? || a.Timeout? || a.Finalize? {
      QueueMoveKeepsSlots(s, a);
    } else {
      SameSlots(s, Next(s, a));
    }
  }

  lemma {:induction false} RunKeepsSlots(s: State, acts: seq<Action>)
    requires Inv(s) && SlotsHeld(s) && ValidRun(s, acts)
    ensures Inv(Exec(s, acts)) && SlotsHeld(Exec(s, acts))
    decreases |acts|
  {
    if acts != [] {
      StepKeepsInv(s, acts[0]);
      StepKeepsSlots(s, acts[0]);
      RunKeepsSlots(Next(s, acts[0]), acts[1..]);
    }
  }

  /** Works that hold a slot are fewer than the open jobs by all that wait. */
  lemma {:induction false} SlotsAreAmongOpen(works: seq<Work>, jobs: seq<QR.Job>, started: nat)
    requires |works| == |jobs| && started <= |jobs|
    requires forall j :: 0 <= j < |works| && HoldsSlot(works[j]) ==> jobs[j].phase.Open? && j < started
    requires forall j :: started <= j < |jobs| ==> jobs[j].phase.Open?
    ensures Count(works, HoldsSlot) + (|jobs| - started) <= Count(jobs, QR.Unfinalized)
  {
    if works != [] {
      var last := |works| - 1;
      if started == |jobs| {
        SlotsAreAmongOpen(works[..last], jobs[..last], last);
      } else {
        SlotsAreAmongOpen(works[..last], jobs[..last], started);
      }
    }
  }

  lemma SlotsBoundRenders(s: State)
    requires Inv(s) && SlotsHeld(s)
    ensures Count(s.works, HoldsSlot) <= s.q.cfg.concurrency
  {
    QR.YoungestAreWaiting(s.q);
    forall j | 0 <= j < |s.works| && HoldsSlot(s.works[j]) ensures s.q.jobs[j].phase.Open? && j < |s.q.starts| {
      assert SlotOk(s, j);
    }
    SlotsAreAmongOpen(s.works, s.q.jobs, |s.q.starts|);
  }

  /** Renders in progress that have not timed out never exceed the queue's slots. */
  lemma RendersInTimeAreBounded(lim: C.Limits, cfg: Q.Config, acts: seq<Action>)
    requires ValidRun(Init(lim, cfg), acts)
    ensures Count(Exec(Init(lim, cfg), acts).works, HoldsSlot) <= Exec(Init(lim, cfg), acts).q.cfg.concurrency
  {
    InitIsFresh(lim, cfg);
    RunKeepsSlots(Init(lim, cfg), acts);
    SlotsBoundRenders(Exec(Init(lim, cfg), acts));
  }

  // ----- attempts and counters -----

  predicate WorkCounted(w: Work) {
    && (w.phase.Unstarted? <==> w.tries == 0)
    && w.tries <= 2
    && (w.aborted ==> w.tries > 0)
  }

  predicate Retried(w: Work) {
    w.tries == 2
  }

  /** How many failed attempts of this work have been recovered from. */
  function Recovered(w: Work): nat {
    if w.phase.Unstarted? || w.tries == 0 then 0
    else if w.phase.Lost? then w.tries
    else w.tries - 1
  }

  ghost predicate Counted(s: State) {
    && (forall j :: 0 <= j < |s.works| ==> WorkCounted(s.works[j]))
    && s.renderRetries == Count(s.works, Retried)
    && s.browserRecoveries == Sum(s.works, Recovered)
  }

  lemma NewWorkIsCounted(s: State, key: string, record: Record)
    requires Counted(s)
    ensures Counted(Submit(s, key, record).0)
  {
    var w := Work(record, Unstarted, 0, false, 0, 0);
    CountAppend(s.works, w, Retried);
    assert (s.works + [w])[..|s.works|] == s.works;
  }

  lemma WorkMoveIsCounted(s: State, a: Action)
    requires Counted(s) && Enabled(s, a) && (a.Begin? || a.Draw? || a.Break? || a.Recover? || a.Timeout?)
    ensures Counted(Next(s, a))
  {
    var w := Next(s, a).works[a.j];
    assert Next(s, a).works == s.works[a.j := w];
    assert WorkCounted(s.works[a.j]);
    CountUpdate(s.works, a.j, w, Retried);
    SumUpdate(s.works, a.j, w, Recovered);
  }

  predicate SameCount(s: State, s': State) {
    s'.works == s.works && s'.renderRetries == s.renderRetries && s'.browserRecoveries == s.browserRecoveries
  }

  lemma CallMoveIsCounted(s: State, a: Action)
    requires Counted(s) && Enabled(s, a) && (a.Direct? || a.LookupOk?)
    ensures Counted(Next(s, a))
  {
    if a.Direct? {
      var (looked, hit) := LookUp(s, a.key, a.now);
      NewWorkIsCounted(looked, a.key, a.record);
      assert SameCount(if hit.Some? then looked else Submit(looked, a.key, a.record).0, Next(s, a));
    } else {
      NewWorkIsCounted(s, s.lookups[a.p].key, a.record);
      assert SameCount(Submit(s, s.lookups[a.p].key, a.record).0, Next(s, a));
    }
  }

  lemma StepKeepsCounted(s: State, a: Action)
    requires Counted(s) && Enabled(s, a)
    ensures Counted(Next(s, a))
  {
    if a.Begin? || a.Draw? || a.Break? || a.Recover? || a.Timeout? {
      WorkMoveIsCounted(s, a);
    } else if a.Direct? || a.LookupOk? {
      CallMoveIsCounted(s, a);
    } else {
      assert SameCount(s, Next(s, a));
    }
  }

  /** How many attempts a work may still end. */
  function AttemptsLeft(s: State, j: nat): nat {
    if j >= |s.works| then 2
    else
      var w := s.works[j];
      match w.phase
      case Unstarted => 2
      case Trying => if w.aborted || w.tries >= 2 then 1 else 2
      case Recycling(_) => if w.aborted || w.tries >= 2 then 0 else 1
      case Won(_) => 0
      case Lost(_) => 0
  }

  function AttemptsEnded(acts: seq<Action>, j: nat): nat {
    if acts == [] then 0
    else (if (acts[0].Draw? || acts[0].Break?) && acts[0].j == j then 1 else 0) + AttemptsEnded(acts[1..], j)
  }

  lemma StepUsesAttempt(s: State, a: Action, j: nat)
    requires Counted(s) && Enabled(s, a)
    ensures AttemptsLeft(Next(s, a), j) + (if (a.Draw? || a.Break?) && a.j == j then 1 else 0) <= AttemptsLeft(s, j)
  {
  }

  lemma {:induction false} AttemptsAreBounded(s: State, acts: seq<Action>, j: nat)
    requires Counted(s) && ValidRun(s, acts)
    ensures Counted(Exec(s, acts)) && AttemptsEnded(acts, j) <= AttemptsLeft(s, j)
    decreases |acts|
  {
    if acts != [] {
      StepKeepsCounted(s, acts[0]);
      StepUsesAttempt(s, acts[0], j);
      AttemptsAreBounded(Next(s, acts[0]), acts[1..], j);
    }
  }

  /** No job begins or ends more than two attempts, and once it has timed out only the one in progress ends. */
  lemma AtMostTwoAttempts(lim: C.Limits, cfg: Q.Config, acts: seq<Action>, later: seq<Action>, j: nat)
    requires ValidRun(Init(lim, cfg), acts) && ValidRun(Exec(Init(lim, cfg), acts), later)
    ensures AttemptsEnded(acts, j) <= 2
    ensures var s := Exec(Init(lim, cfg), acts);
            j < |s.works| ==> s.works[j].tries <= 2 && (s.works[j].aborted ==> AttemptsEnded(later, j) <= 1)
  {
    AttemptsAreBounded(Init(lim, cfg), acts, j);
    AttemptsAreBounded(Exec(Init(lim, cfg), acts), later, j);
  }

  /** The counters are exact: retries count the works tried twice, recoveries every failure dealt with. */
  lemma CountersAreExact(lim: C.Limits, cfg: Q.Config, acts: seq<Action>)
    requires ValidRun(Init(lim, cfg), acts)
    ensures var s := Exec(Init(lim, cfg), acts);
            && s.renderRetries == Count(s.works, Retried) <= s.browserRecoveries
            && s.browserRecoveries == Sum(s.works, Recovered)
  {
    AttemptsAreBounded(Init(lim, cfg), acts, 0);
    RetriesAreRecoveries(Exec(Init(lim, cfg), acts).works);
  }

  lemma {:induction false} RetriesAreRecoveries(ws: seq<Work>)
    requires forall j :: 0 <= j < |ws| ==> WorkCounted(ws[j])
    ensures Count(ws, Retried) <= Sum(ws, Recovered)
  {
    if ws != [] {
      RetriesAreRecoveries(ws[..|ws| - 1]);
    }
  }
}
