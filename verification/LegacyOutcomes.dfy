/** Where the Node service's errors come from, and what becomes of a call that joins a lookup. */
module LegacyOutcomes {
  import opened Basics
  import opened Counting
  import opened LegacyService
  import C = RenderCache
  import Q = EventQueue
  import QR = EventQueueRuns

  /** Something that went wrong in a run: an attempt of a job or its queue timer, or a lookup. */
  datatype Cause = OfJob(j: nat, error: string) | OfLookup(p: nat, error: string)

  function Causes(acts: seq<Action>): set<Cause> {
    if acts == [] then {}
    else
      (match acts[0]
       case Break(j, error) => {OfJob(j, error)}
       case Timeout(j, error, _) => {OfJob(j, error)}
       case LookupErr(p, error) => {OfLookup(p, error)}
       case _ => {}) + Causes(acts[1..])
  }

  ghost predicate WorkCaused(w: Work, j: nat, known: set<Cause>) {
    && (w.phase.Recycling? ==> OfJob(j, w.phase.error) in known)
    && (w.phase.Lost? ==> OfJob(j, w.phase.error) in known)
  }

  ghost predicate PromiseCaused(o: Option<Q.Outcome>, j: nat, known: set<Cause>) {
    o.Some? && o.value.Rejected? ==> OfJob(j, o.value.message) in known
  }

  ghost predicate JobsCaused(s: State, known: set<Cause>) {
    && (forall j :: 0 <= j < |s.works| ==> WorkCaused(s.works[j], j, known))
    && (forall j :: 0 <= j < |s.q.sh.promises| ==> PromiseCaused(s.q.sh.promises[j], j, known))
  }

  lemma StepKeepsJobsCaused(s: State, a: Action, known: set<Cause>)
    requires Enabled(s, a) && JobsCaused(s, known)
    ensures JobsCaused(Next(s, a), known + Causes([a]))
  {
    var s' := Next(s, a);
    assert [a][1..] == [];
    forall j | 0 <= j < |s'.works| ensures WorkCaused(s'.works[j], j, known + Causes([a])) {
      if j < |s.works| {
        assert WorkCaused(s.works[j], j, known);
      }
    }
    PromisesStayCaused(s, a, known);
  }

  lemma PromisesStayCaused(s: State, a: Action, known: set<Cause>)
    requires Enabled(s, a) && JobsCaused(s, known)
    ensures forall j :: 0 <= j < |Next(s, a).q.sh.promises| ==>
              PromiseCaused(Next(s, a).q.sh.promises[j], j, known + Causes([a]))
  {
    var s' := Next(s, a);
    assert [a][1..] == [];
    if a.Finish? {
      assert WorkCaused(s.works[a.j], a.j, known);
    }
    forall j | 0 <= j < |s'.q.sh.promises| ensures PromiseCaused(s'.q.sh.promises[j], j, known + Causes([a])) {
      if j < |s.q.sh.promises| {
        assert PromiseCaused(s.q.sh.promises[j], j, known);
      }
    }
  }

  lemma {:induction false} RunKeepsJobsCaused(s: State, acts: seq<Action>, known: set<Cause>)
    requires ValidRun(s, acts) && JobsCaused(s, known)
    ensures JobsCaused(Exec(s, acts), known + Causes(acts))
    decreases |acts|
  {
    if acts == [] {
      assert known + Causes(acts) == known;
    } else {
      StepKeepsJobsCaused(s, acts[0], known);
      assert [acts[0]][1..] == [];
      RunKeepsJobsCaused(Next(s, acts[0]), acts[1..], known + Causes([acts[0]]));
      assert known + Causes([acts[0]]) + Causes(acts[1..]) == known + Causes(acts);
    }
  }

  lemma {:induction false} CauseHappened(acts: seq<Action>, j: nat, error: string) returns (k: nat)
    requires OfJob(j, error) in Causes(acts)
    ensures k < |acts| && (acts[k].Break? || acts[k].Timeout?) && acts[k].j == j && acts[k].error == error
  {
    if (acts[0].Break? || acts[0].Timeout?) && acts[0].j == j && acts[0].error == error {
      k := 0;
    } else {
      k := CauseHappened(acts[1..], j, error);
      k := k + 1;
    }
  }

  /** A job is rejected only with the error of its queue timer or of one of its own attempts. */
  lemma RejectionsAreTheJobsOwn(lim: C.Limits, cfg: Q.Config, acts: seq<Action>, j: nat, error: string)
    returns (k: nat)
    requires ValidRun(Init(lim, cfg), acts)
    requires var promises := Exec(Init(lim, cfg), acts).q.sh.promises;
             j < |promises| && promises[j] == Some(Q.Rejected(error))
    ensures k < |acts| && (acts[k].Break? || acts[k].Timeout?) && acts[k].j == j && acts[k].error == error
  {
    RunKeepsJobsCaused(Init(lim, cfg), acts, {});
    assert PromiseCaused(Exec(Init(lim, cfg), acts).q.sh.promises[j], j, {} + Causes(acts));
    k := CauseHappened(acts, j, error);
  }

  // ----- lookups -----

  /** The lookup has this outcome, whether or not it has left the map. */
  predicate EndsAs(s: State, p: nat, o: Q.Outcome) {
    p < |s.lookups| && (s.lookups[p].phase == Leaving(o) || s.lookups[p].phase == Ended(o))
  }

  /** The lookup waits for this job, or has ended with the job's outcome. */
  predicate Follows(s: State, p: nat, j: nat) {
    && p < |s.lookups| && j < |s.q.sh.promises|
    && (s.lookups[p].phase == Drawing(j) || (s.q.sh.promises[j].Some? && EndsAs(s, p, s.q.sh.promises[j].value)))
  }

  lemma {:induction false} OutcomeStays(s: State, acts: seq<Action>, p: nat, o: Q.Outcome)
    requires ValidRun(s, acts) && EndsAs(s, p, o)
    ensures EndsAs(Exec(s, acts), p, o)
    decreases |acts|
  {
    if acts != [] {
      StepFramesLookups(s, acts[0]);
      OutcomeStays(Next(s, acts[0]), acts[1..], p, o);
    }
  }

  lemma QueuePromiseStays(q: QR.State, a: QR.Action, j: nat)
    requires QR.Inv(q) && QR.Enabled(q, a) && j < |q.sh.promises|
    ensures j < |QR.Next(q, a).sh.promises|
    ensures q.sh.promises[j].Some? ==> QR.Next(q, a).sh.promises[j] == q.sh.promises[j]
  {
  }

  /** A step of the service makes at most one step of its queue. */
  lemma StepOfQueue(s: State, a: Action) returns (step: Option<QR.Action>)
    requires Enabled(s, a)
    ensures if step.Some? then QR.Enabled(s.q, step.value) && Next(s, a).q == QR.Next(s.q, step.value)
            else Next(s, a).q == s.q
  {
    if a.Finish? || a.Timeout? || a.Finalize? {
      step := Some(QueueStep(s, a));
    } else if a.LookupOk? {
      step := Some(QR.Call(s.lookups[a.p].key));
    } else if a.Direct? && C.Get(s.cache, a.key, a.now).1.None? {
      step := Some(QR.Call(a.key));
    } else {
      step := None;
    }
  }

  lemma PromiseStays(s: State, a: Action, j: nat)
    requires QR.Inv(s.q) && Enabled(s, a) && j < |s.q.sh.promises|
    ensures j < |Next(s, a).q.sh.promises|
    ensures s.q.sh.promises[j].Some? ==> Next(s, a).q.sh.promises[j] == s.q.sh.promises[j]
  {
    var step := StepOfQueue(s, a);
    if step.Some? {
      QueuePromiseStays(s.q, step.value, j);
    }
  }

  lemma StepKeepsFollowing(s: State, a: Action, p: nat, j: nat)
    requires QR.Inv(s.q) && Enabled(s, a) && Follows(s, p, j)
    ensures Follows(Next(s, a), p, j)
  {
    PromiseStays(s, a, j);
    StepFramesLookups(s, a);
  }

  /** A lookup that has handed its record to a job ends with that job's outcome. */
  lemma {:induction false} LookupEndsAsItsJob(s: State, acts: seq<Action>, p: nat, j: nat)
    requires Inv(s) && ValidRun(s, acts) && Follows(s, p, j)
    ensures Follows(Exec(s, acts), p, j)
    decreases |acts|
  {
    if acts != [] {
      StepKeepsInv(s, acts[0]);
      StepKeepsFollowing(s, acts[0], p, j);
      LookupEndsAsItsJob(Next(s, acts[0]), acts[1..], p, j);
    }
  }

  /** A found record follows the job it lands on, or ends its lookup with the busy error. */
  lemma FoundRecordFollowsItsJob(s: State, p: nat, record: Record, acts: seq<Action>)
    requires Inv(s) && Enabled(s, LookupOk(p, record)) && ValidRun(Next(s, LookupOk(p, record)), acts)
    ensures var end := Exec(Next(s, LookupOk(p, record)), acts);
            match Q.Add(s.q.cfg, s.q.sh, s.lookups[p].key).1
            case Full => EndsAs(end, p, Q.Rejected("The image queue is busy. Try again shortly."))
            case Shares(j) => Follows(end, p, j)
            case Admitted(j) => Follows(end, p, j)
  {
    var s' := Next(s, LookupOk(p, record));
    StepKeepsInv(s, LookupOk(p, record));
    CallLandsOnKey(s.q, s.lookups[p].key);
    match Q.Add(s.q.cfg, s.q.sh, s.lookups[p].key).1
    case Full => OutcomeStays(s', acts, p, Q.Rejected("The image queue is busy. Try again shortly."));
    case Shares(j) => LookupEndsAsItsJob(s', acts, p, j);
    case Admitted(j) => LookupEndsAsItsJob(s', acts, p, j);
  }

  /** A failed lookup ends with its own error. */
  lemma FailedLookupKeepsItsError(s: State, p: nat, error: string, acts: seq<Action>)
    requires Enabled(s, LookupErr(p, error)) && ValidRun(Next(s, LookupErr(p, error)), acts)
    ensures EndsAs(Exec(Next(s, LookupErr(p, error)), acts), p, Q.Rejected(error))
  {
    OutcomeStays(Next(s, LookupErr(p, error)), acts, p, Q.Rejected(error));
  }

  // ----- sharing -----

  predicate Joined(call: Call) {
    call.answer.OnLookup?
  }

  /** A call that waits for a lookup either starts it or is counted. */
  lemma CallCountsJoins(s: State, a: Action)
    requires Enabled(s, a) && (a.Direct? || a.ById?)
    ensures var s' := Next(s, a);
            && |s'.calls| == |s.calls| + 1 && s'.calls[..|s.calls|] == s.calls
            && |s'.lookups| + s'.deduplicated
            == |s.lookups| + s.deduplicated + (if Joined(s'.calls[|s.calls|]) then 1 else 0)
  {
  }

  lemma OtherStepsCountNothing(s: State, a: Action)
    requires Enabled(s, a) && !a.Direct? && !a.ById?
    ensures var s' := Next(s, a);
            s'.calls == s.calls && |s'.lookups| == |s.lookups| && s'.deduplicated == s.deduplicated
  {
  }

  lemma StepCountsJoins(s: State, a: Action)
    requires Enabled(s, a) && Count(s.calls, Joined) == |s.lookups| + s.deduplicated
    ensures Count(Next(s, a).calls, Joined) == |Next(s, a).lookups| + Next(s, a).deduplicated
  {
    if a.Direct? || a.ById? {
      CallCountsJoins(s, a);
      var calls := Next(s, a).calls;
      assert calls == calls[..|s.calls|] + [calls[|s.calls|]];
      CountAppend(s.calls, calls[|s.calls|], Joined);
    } else {
      OtherStepsCountNothing(s, a);
    }
  }

  lemma {:induction false} RunCountsJoins(s: State, acts: seq<Action>)
    requires ValidRun(s, acts) && Count(s.calls, Joined) == |s.lookups| + s.deduplicated
    ensures var end := Exec(s, acts); Count(end.calls, Joined) == |end.lookups| + end.deduplicated
    decreases |acts|
  {
    if acts != [] {
      StepCountsJoins(s, acts[0]);
      RunCountsJoins(Next(s, acts[0]), acts[1..]);
    }
  }

  /** Of the calls that wait for a lookup, one started it and every other one is counted as deduplicated. */
  lemma JoinsAreCounted(lim: C.Limits, cfg: Q.Config, acts: seq<Action>)
    requires ValidRun(Init(lim, cfg), acts)
    ensures var s := Exec(Init(lim, cfg), acts); Count(s.calls, Joined) == |s.lookups| + s.deduplicated
  {
    RunCountsJoins(Init(lim, cfg), acts);
  }

  // ----- answers -----

  predicate Looks(s: State, key: string, p: nat) {
    p < |s.lookups| && s.lookups[p].key == key && !s.lookups[p].phase.Ended?
  }

  lemma LooksIsInFlight(s: State, key: string)
    requires SharedOk(s)
    ensures key in s.inFlight <==> exists p: nat :: Looks(s, key, p)
    ensures key in s.inFlight ==> Looks(s, key, s.inFlight[key])
  {
    if p: nat :| Looks(s, key, p) {
      assert key in s.inFlight;
    }
    if key in s.inFlight {
      assert Looks(s, key, s.inFlight[key]);
    }
  }

  /**
   After a miss, a call by match id joins the lookup of its key if one has not ended, is refused if there
   is none and no room to look, and otherwise starts the next lookup.
  */
  lemma ByIdAnswersAreExact(s: State, key: string, now: int, full: bool)
    requires Inv(s) && C.Get(s.cache, key, now).1.None?
    ensures var s' := Next(s, ById(key, now, full));
            var answer := s'.calls[|s.calls|].answer;
            if exists p: nat :: Looks(s, key, p) then
              answer.OnLookup? && Looks(s, key, answer.lookup) && s'.lookups == s.lookups
            else if full then answer == Busy && s'.lookups == s.lookups
            else answer == OnLookup(|s.lookups|) && s'.lookups == s.lookups + [Lookup(key, Loading)]
  {
    LooksIsInFlight(s, key);
  }

  predicate Draws(q: QR.State, key: string, j: nat) {
    j < |q.jobs| && q.jobs[j].key == key && !q.jobs[j].phase.Finalized?
  }

  lemma DrawsIsInFlight(q: QR.State, key: string)
    requires QR.Inv(q)
    ensures key in q.sh.inFlight <==> exists j: nat :: Draws(q, key, j)
    ensures key in q.sh.inFlight ==> Draws(q, key, q.sh.inFlight[key])
  {
    if j: nat :| Draws(q, key, j) {
      assert QR.Unfinalized(q.jobs[j]);
    }
    if key in q.sh.inFlight {
      assert Draws(q, key, q.sh.inFlight[key]);
    }
  }

  lemma SubmitAnswersAreExact(s: State, key: string, record: Record)
    requires QR.Inv(s.q) && |s.works| == |s.q.jobs|
    ensures var (s', job) := Submit(s, key, record);
            if exists j: nat :: Draws(s.q, key, j) then
              job.Some? && Draws(s.q, key, job.value) && s'.works == s.works
            else if |s.q.sh.waiting| >= s.q.cfg.maxQueued then job == None && s'.works == s.works
            else
              job == Some(|s.works|) && |s'.works| == |s.works| + 1 && s'.works[|s.works|].record == record
  {
    DrawsIsInFlight(s.q, key);
  }

  /**
   After a miss, a direct call gets the promise of the job that draws its key if there is one, is refused
   if there is none and the queue is full, and otherwise has a new job made on its own record.
  */
  lemma DirectAnswersAreExact(s: State, key: string, record: Record, now: int)
    requires Inv(s) && C.Get(s.cache, key, now).1.None?
    ensures var s' := Next(s, Direct(key, record, now));
            var answer := s'.calls[|s.calls|].answer;
            if exists j: nat :: Draws(s.q, key, j) then
              answer.OnJob? && Draws(s.q, key, answer.job) && s'.works == s.works
            else if |s.q.sh.waiting| >= s.q.cfg.maxQueued then answer == Busy && s'.works == s.works
            else
              answer == OnJob(|s.works|) && |s'.works| == |s.works| + 1 && s'.works[|s.works|].record == record
  {
    SubmitAnswersAreExact(LookUp(s, key, now).0, key, record);
  }
}
