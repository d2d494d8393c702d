/** Runs of the event-loop queue: any order of calls, settlements and finalizations. */
module EventQueueRuns {
  import opened Basics
  import opened Counting
  import opened EventQueue

  datatype Phase = Open | Settled(outcome: Outcome) | Finalized(outcome: Outcome)

  datatype Job = Job(key: Key, phase: Phase)

  /**
   `starts` lists the jobs in the order in which they were shifted off the waiting list; `calls`,
   `refused` and `recorded` are the history of `add` and of the measured durations.
  */
  datatype State = State(
    cfg: Config,
    sh: Shared,
    jobs: seq<Job>,
    starts: seq<nat>,
    calls: nat,
    refused: nat,
    recorded: seq<nat>)

  datatype Action = Call(key: Key) | Finish(j: nat, outcome: Outcome, ms: nat) | Done(j: nat)

  function Init(cfg: Config): State {
    State(cfg, EMPTY, [], [], 0, 0, [])
  }

  predicate IsWaiting(s: State, j: nat) {
    exists i :: 0 <= i < |s.sh.waiting| && s.sh.waiting[i].job == j
  }

  predicate Enabled(s: State, a: Action) {
    match a
    case Call(_) => true
    case Finish(j, _, _) => j < |s.jobs| && j < |s.sh.promises| && s.jobs[j].phase.Open? && !IsWaiting(s, j)
    case Done(j) => j < |s.jobs| && s.jobs[j].phase.Settled?
  }

  /** The ids that a drain from `waiting` to a shorter list has shifted off the front. */
  function Shifted(waiting: seq<Waiting>, n: nat): seq<nat>
    requires n <= |waiting|
  {
    seq(n, i requires 0 <= i < n => waiting[i].job)
  }

  function Next(s: State, a: Action): State
    requires Enabled(s, a)
  {
    match a
    case Call(key) =>
      var (sh, answer) := Add(s.cfg, s.sh, key);
      (match answer
       case Full => s.(sh := sh, calls := s.calls + 1, refused := s.refused + 1)
       case Shares(_) => s.(sh := sh, calls := s.calls + 1)
       case Admitted(_) =>
         var queued := Enqueue(s.sh, key);
         s.(sh := sh, calls := s.calls + 1, jobs := s.jobs + [Job(key, Open)],
            starts := s.starts + Shifted(queued.waiting, Startable(s.cfg, queued))))
    case Finish(j, o, ms) =>
      s.(sh := Settle(s.sh, j, o, ms), jobs := s.jobs[j := s.jobs[j].(phase := Settled(o))],
         recorded := s.recorded + [ms])
    case Done(j) =>
      var freed := s.sh.(active := s.sh.active - 1);
      s.(sh := Finalize(s.cfg, s.sh, s.jobs[j].key),
         jobs := s.jobs[j := s.jobs[j].(phase := Finalized(s.jobs[j].phase.outcome))],
         starts := s.starts + Shifted(s.sh.waiting, Startable(s.cfg, freed)))
  }

  ghost predicate ValidRun(s: State, acts: seq<Action>)
    decreases |acts|
  {
    acts == [] || (Enabled(s, acts[0]) && ValidRun(Next(s, acts[0]), acts[1..]))
  }

  ghost function Exec(s: State, acts: seq<Action>): State
    requires ValidRun(s, acts)
    decreases |acts|
  {
    if acts == [] then s else Exec(Next(s, acts[0]), acts[1..])
  }

  // ----- the invariant -----

  predicate Unfinalized(job: Job) { !job.phase.Finalized? }

  predicate HasSettled(job: Job) { !job.phase.Open? }

  predicate SettledWell(job: Job) { !job.phase.Open? && job.phase.outcome.Resolved? }

  predicate SettledBadly(job: Job) { !job.phase.Open? && job.phase.outcome.Rejected? }

  /** The waiting list continues the ids where the starts end. */
  ghost predicate PlaceOk(s: State, i: nat)
    requires i < |s.sh.waiting| && |s.starts| + i < |s.jobs|
  {
    var j := |s.starts| + i;
    s.sh.waiting[i] == Waiting(s.jobs[j].key, j) && s.jobs[j].phase.Open?
  }

  /** Jobs start in admission order, so the waiting list is always the youngest ids. */
  ghost predicate OrderOk(s: State) {
    && |s.starts| + |s.sh.waiting| == |s.jobs|
    && (forall i :: 0 <= i < |s.starts| ==> s.starts[i] == i)
    && (forall i :: 0 <= i < |s.sh.waiting| ==> PlaceOk(s, i))
  }

  ghost predicate PromisesOk(s: State) {
    && |s.sh.promises| == |s.jobs|
    && forall j :: 0 <= j < |s.jobs| ==>
         s.sh.promises[j] == if s.jobs[j].phase.Open? then None else Some(s.jobs[j].phase.outcome)
  }

  ghost predicate KeysOk(s: State) {
    && (forall j :: 0 <= j < |s.jobs| && Unfinalized(s.jobs[j]) ==>
          s.jobs[j].key in s.sh.inFlight && s.sh.inFlight[s.jobs[j].key] == j)
    && (forall k :: k in s.sh.inFlight ==>
          s.sh.inFlight[k] < |s.jobs| && s.jobs[s.sh.inFlight[k]].key == k && Unfinalized(s.jobs[s.sh.inFlight[k]]))
  }

  ghost predicate SlotsOk(s: State) {
    && s.sh.active + |s.sh.waiting| == Count(s.jobs, Unfinalized) == |s.sh.inFlight|
    && 0 <= s.sh.active <= s.cfg.concurrency
    && |s.sh.waiting| <= s.cfg.maxQueued
    && (s.sh.waiting != [] ==> s.sh.active == s.cfg.concurrency)
  }

  ghost predicate CountersOk(s: State) {
    && s.calls == s.refused + s.sh.deduplicated + |s.jobs|
    && s.sh.completed == Count(s.jobs, SettledWell)
    && s.sh.failed == Count(s.jobs, SettledBadly)
    && |s.recorded| == Count(s.jobs, HasSettled)
    && s.sh.durations == LastN(s.recorded, SAMPLE_WINDOW)
  }

  ghost predicate Inv(s: State) {
    OrderOk(s) && PromisesOk(s) && KeysOk(s) && SlotsOk(s) && CountersOk(s)
  }

  // ----- preservation -----

  /** Open jobs on the waiting list leave room for a settled one among the active. */
  lemma {:induction false} ActiveCoversSettled(jobs: seq<Job>, started: nat, j: nat)
    requires j < started <= |jobs| && Unfinalized(jobs[j])
    requires forall i :: started <= i < |jobs| ==> jobs[i].phase.Open?
    ensures Count(jobs, Unfinalized) > |jobs| - started
  {
    if started == |jobs| {
      CountPositive(jobs, j, Unfinalized);
    } else {
      ActiveCoversSettled(jobs[..|jobs| - 1], started, j);
    }
  }

  /** Shifting the first `n` waiting jobs into the starts keeps the order. */
  lemma ShiftKeepsOrder(s: State, s': State, n: nat)
    requires OrderOk(s) && n <= |s.sh.waiting|
    requires s'.jobs == s.jobs && s'.sh.waiting == s.sh.waiting[n..]
    requires s'.starts == s.starts + Shifted(s.sh.waiting, n)
    ensures OrderOk(s')
  {
    forall i | 0 <= i < |s'.starts| ensures s'.starts[i] == i {
      if i >= |s.starts| {
        assert PlaceOk(s, i - |s.starts|);
      }
    }
    forall i | 0 <= i < |s'.sh.waiting| ensures PlaceOk(s', i) {
      assert PlaceOk(s, n + i);
    }
  }

  lemma EnqueueKeepsOrder(s: State, key: Key)
    requires OrderOk(s) && PromisesOk(s)
    ensures OrderOk(s.(sh := Enqueue(s.sh, key), jobs := s.jobs + [Job(key, Open)]))
  {
    var queued := s.(sh := Enqueue(s.sh, key), jobs := s.jobs + [Job(key, Open)]);
    forall i | 0 <= i < |queued.sh.waiting| ensures PlaceOk(queued, i) {
      if i < |s.sh.waiting| {
        assert PlaceOk(s, i);
      }
    }
  }

  lemma CallKeepsOrder(s: State, key: Key)
    requires OrderOk(s) && PromisesOk(s)
    ensures OrderOk(Next(s, Call(key)))
  {
    var s' := Next(s, Call(key));
    if key !in s.sh.inFlight && |s.sh.waiting| < s.cfg.maxQueued {
      var queued := s.(sh := Enqueue(s.sh, key), jobs := s.jobs + [Job(key, Open)]);
      EnqueueKeepsOrder(s, key);
      ShiftKeepsOrder(queued, s', Startable(s.cfg, queued.sh));
    } else {
      forall i | 0 <= i < |s'.sh.waiting| ensures PlaceOk(s', i) {
        assert PlaceOk(s, i);
      }
    }
  }

  lemma CallKeepsKeys(s: State, key: Key)
    requires PromisesOk(s) && KeysOk(s)
    ensures PromisesOk(Next(s, Call(key))) && KeysOk(Next(s, Call(key)))
  {
  }

  lemma CallKeepsSlots(s: State, key: Key)
    requires SlotsOk(s)
    ensures SlotsOk(Next(s, Call(key)))
  {
    CountAppend(s.jobs, Job(key, Open), Unfinalized);
    if key !in s.sh.inFlight {
      MapGrows(s.sh.inFlight, key, |s.sh.promises|);
    }
  }

  lemma CallKeepsCounters(s: State, key: Key)
    requires CountersOk(s)
    ensures CountersOk(Next(s, Call(key)))
  {
    CountAppend(s.jobs, Job(key, Open), SettledWell);
    CountAppend(s.jobs, Job(key, Open), SettledBadly);
    CountAppend(s.jobs, Job(key, Open), HasSettled);
  }

  lemma YoungestAreWaiting(s: State)
    requires OrderOk(s)
    ensures forall i :: 0 <= i < |s.sh.waiting| ==> s.sh.waiting[i].job == |s.starts| + i
    ensures forall j :: |s.starts| <= j < |s.jobs| ==> s.jobs[j].phase.Open?
    ensures forall j :: 0 <= j < |s.jobs| ==> (IsWaiting(s, j) <==> j >= |s.starts|)
  {
    forall i | 0 <= i < |s.sh.waiting| ensures s.sh.waiting[i].job == |s.starts| + i {
      assert PlaceOk(s, i);
    }
    forall j | |s.starts| <= j < |s.jobs| ensures s.jobs[j].phase.Open? && IsWaiting(s, j) {
      assert PlaceOk(s, j - |s.starts|);
    }
  }

  lemma FinishKeepsOrder(s: State, a: Action)
    requires OrderOk(s) && PromisesOk(s) && KeysOk(s) && a.Finish? && Enabled(s, a)
    ensures OrderOk(Next(s, a)) && PromisesOk(Next(s, a)) && KeysOk(Next(s, a))
  {
    YoungestAreWaiting(s);
    forall i | 0 <= i < |s.sh.waiting| ensures PlaceOk(Next(s, a), i) {
      assert PlaceOk(s, i);
    }
  }

  lemma FinishKeepsCounters(s: State, a: Action)
    requires SlotsOk(s) && CountersOk(s) && a.Finish? && Enabled(s, a)
    ensures SlotsOk(Next(s, a)) && CountersOk(Next(s, a))
  {
    var job := Job(s.jobs[a.j].key, Settled(a.outcome));
    CountUpdate(s.jobs, a.j, job, Unfinalized);
    CountUpdate(s.jobs, a.j, job, SettledWell);
    CountUpdate(s.jobs, a.j, job, SettledBadly);
    CountUpdate(s.jobs, a.j, job, HasSettled);
  }

  lemma SettledJobHasStarted(s: State, j: nat)
    requires OrderOk(s) && j < |s.jobs| && !s.jobs[j].phase.Open?
    ensures j < |s.starts|
  {
    YoungestAreWaiting(s);
  }

  lemma DoneKeepsOrder(s: State, j: nat)
    requires OrderOk(s) && Enabled(s, Done(j))
    ensures OrderOk(Next(s, Done(j)))
  {
    SettledJobHasStarted(s, j);
    var s' := Next(s, Done(j));
    var finalized := s.(jobs := s'.jobs);
    forall i | 0 <= i < |s.sh.waiting| ensures PlaceOk(finalized, i) {
      assert PlaceOk(s, i);
    }
    ShiftKeepsOrder(finalized, s', |s.sh.waiting| - |s'.sh.waiting|);
  }

  lemma DoneKeepsKeys(s: State, j: nat)
    requires PromisesOk(s) && KeysOk(s) && Enabled(s, Done(j))
    ensures PromisesOk(Next(s, Done(j))) && KeysOk(Next(s, Done(j)))
  {
  }

  lemma SettledJobIsActive(s: State, j: nat)
    requires OrderOk(s) && SlotsOk(s) && j < |s.jobs| && s.jobs[j].phase.Settled?
    ensures s.sh.active > 0 && j < |s.starts|
  {
    SettledJobHasStarted(s, j);
    YoungestAreWaiting(s);
    ActiveCoversSettled(s.jobs, |s.starts|, j);
  }

  lemma DoneKeepsSlots(s: State, j: nat)
    requires OrderOk(s) && KeysOk(s) && SlotsOk(s) && Enabled(s, Done(j))
    ensures SlotsOk(Next(s, Done(j)))
  {
    SettledJobIsActive(s, j);
    CountUpdate(s.jobs, j, s.jobs[j].(phase := Finalized(s.jobs[j].phase.outcome)), Unfinalized);
    MapShrinks(s.sh.inFlight, s.jobs[j].key);
  }

  lemma DoneKeepsCounters(s: State, j: nat)
    requires CountersOk(s) && Enabled(s, Done(j))
    ensures CountersOk(Next(s, Done(j)))
  {
    var job := s.jobs[j].(phase := Finalized(s.jobs[j].phase.outcome));
    CountUpdate(s.jobs, j, job, SettledWell);
    CountUpdate(s.jobs, j, job, SettledBadly);
    CountUpdate(s.jobs, j, job, HasSettled);
  }

  lemma StepKeepsInv(s: State, a: Action)
    requires Inv(s) && Enabled(s, a)
    ensures Inv(Next(s, a))
  {
    match a
    case Call(key) =>
      CallKeepsOrder(s, key);
      CallKeepsKeys(s, key);
      CallKeepsSlots(s, key);
      CallKeepsCounters(s, key);
    case Finish(_, _, _) =>
      FinishKeepsOrder(s, a);
      FinishKeepsCounters(s, a);
    case Done(j) =>
      DoneKeepsOrder(s, j);
      DoneKeepsKeys(s, j);
      DoneKeepsSlots(s, j);
      DoneKeepsCounters(s, j);
  }

  lemma {:induction false} RunKeepsInv(s: State, acts: seq<Action>)
    requires Inv(s) && ValidRun(s, acts)
    ensures Inv(Exec(s, acts))
    decreases |acts|
  {
    if acts != [] {
      StepKeepsInv(s, acts[0]);
      RunKeepsInv(Next(s, acts[0]), acts[1..]);
    }
  }

  ghost predicate Reachable(s: State) {
    exists cfg: Config, acts: seq<Action> :: ValidRun(Init(cfg), acts) && s == Exec(Init(cfg), acts)
  }

  lemma ReachableInv(s: State)
    requires Reachable(s)
    ensures Inv(s)
  {
    var cfg: Config, acts: seq<Action> :| ValidRun(Init(cfg), acts) && s == Exec(Init(cfg), acts);
    RunKeepsInv(Init(cfg), acts);
  }

  // ----- what every run guarantees -----

  /** Bounded and work-conserving: no job waits while a slot is idle. */
  lemma BoundedAndWorkConserving(s: State)
    requires Reachable(s)
    ensures s.sh.active <= s.cfg.concurrency && |s.sh.waiting| <= s.cfg.maxQueued
    ensures s.sh.waiting != [] ==> s.sh.active == s.cfg.concurrency
    ensures |s.sh.inFlight| == s.sh.active + |s.sh.waiting| == Count(s.jobs, Unfinalized)
  {
    ReachableInv(s);
  }

  /** First in, first out, over the whole run: the k-th job to start is the k-th one admitted. */
  lemma StartsInAdmissionOrder(s: State, k: nat)
    requires Reachable(s) && k < |s.starts|
    ensures s.starts[k] == k && !IsWaiting(s, k)
  {
    ReachableInv(s);
    YoungestAreWaiting(s);
  }

  function Finalizations(acts: seq<Action>): nat {
    if acts == [] then 0 else (if acts[0].Done? then 1 else 0) + Finalizations(acts[1..])
  }

  lemma StepMovesWaitingUp(s: State, a: Action, i: nat)
    requires Inv(s) && Enabled(s, a) && i < |s.sh.waiting|
    ensures var s' := Next(s, a);
            if !a.Done? then i < |s'.sh.waiting| && s'.sh.waiting[i] == s.sh.waiting[i]
            else if i > 0 then i - 1 < |s'.sh.waiting| && s'.sh.waiting[i - 1] == s.sh.waiting[i]
            else s.sh.waiting[0].job < |s'.starts|
  {
    YoungestAreWaiting(s);
    if a.Done? {
      SettledJobIsActive(s, a.j);
    }
  }

  /** The job that was waiting at index `i`, after `f` finalizations. */
  ghost predicate Turn(s: State, job: Waiting, i: nat, f: nat) {
    && (IsWaiting(s, job.job) <==> f <= i)
    && (f <= i ==> i - f < |s.sh.waiting| && s.sh.waiting[i - f] == job)
  }

  lemma TurnShift(s: State, job: Waiting, i: nat, f: nat)
    requires Turn(s, job, i, f)
    ensures Turn(s, job, i + 1, f + 1)
  {
  }

  /**
   A job waiting at index `i` starts on exactly the (i+1)-th later finalization, and until then each
   finalization moves it one place forward, whatever else happens.
  */
  lemma {:induction false} StartsOnItsTurn(s: State, acts: seq<Action>, i: nat)
    requires Inv(s) && ValidRun(s, acts) && i < |s.sh.waiting|
    ensures Turn(Exec(s, acts), s.sh.waiting[i], i, Finalizations(acts))
    decreases |acts|
  {
    if acts == [] {
      assert IsWaiting(s, s.sh.waiting[i].job);
    } else if acts[0].Done? && i == 0 {
      FrontStartsAtOnce(s, acts);
    } else {
      var s1 := Next(s, acts[0]);
      var i1 := if acts[0].Done? then i - 1 else i;
      StepKeepsInv(s, acts[0]);
      assert i1 < |s1.sh.waiting| && s1.sh.waiting[i1] == s.sh.waiting[i] by {
        StepMovesWaitingUp(s, acts[0], i);
      }
      StartsOnItsTurn(s1, acts[1..], i1);
      assert Exec(s, acts) == Exec(s1, acts[1..]);
      if acts[0].Done? {
        TurnShift(Exec(s, acts), s.sh.waiting[i], i1, Finalizations(acts[1..]));
      }
    }
  }

  lemma FrontStartsAtOnce(s: State, acts: seq<Action>)
    requires Inv(s) && ValidRun(s, acts) && s.sh.waiting != [] && acts != [] && acts[0].Done?
    ensures Turn(Exec(s, acts), s.sh.waiting[0], 0, Finalizations(acts))
  {
    StepKeepsInv(s, acts[0]);
    StepMovesWaitingUp(s, acts[0], 0);
    StartsOnlyGrow(Next(s, acts[0]), acts[1..]);
  }

  /** A job that has started is never waiting again. */
  lemma {:induction false} StartsOnlyGrow(s: State, acts: seq<Action>)
    requires Inv(s) && ValidRun(s, acts)
    ensures |Exec(s, acts).starts| >= |s.starts|
    ensures forall j :: 0 <= j < |s.starts| ==> !IsWaiting(Exec(s, acts), j)
    decreases |acts|
  {
    if acts != [] {
      StepKeepsInv(s, acts[0]);
      assert |Next(s, acts[0]).starts| >= |s.starts|;
      StartsOnlyGrow(Next(s, acts[0]), acts[1..]);
    } else {
      YoungestAreWaiting(s);
    }
  }

  function Settlements(acts: seq<Action>, j: nat): nat {
    if acts == [] then 0
    else (if acts[0].Finish? && acts[0].j == j then 1 else 0) + Settlements(acts[1..], j)
  }

  predicate IsSettled(s: State, j: nat) {
    j < |s.jobs| && HasSettled(s.jobs[j])
  }

  /** A promise is settled by one settlement and keeps its outcome: a second one never happens. */
  lemma {:induction false} PromisesSettleOnce(s: State, acts: seq<Action>, j: nat)
    requires ValidRun(s, acts)
    ensures Settlements(acts, j) + (if IsSettled(s, j) then 1 else 0) == if IsSettled(Exec(s, acts), j) then 1 else 0
    ensures IsSettled(s, j) ==> Exec(s, acts).jobs[j].phase.outcome == s.jobs[j].phase.outcome
    decreases |acts|
  {
    if acts != [] {
      PromisesSettleOnce(Next(s, acts[0]), acts[1..], j);
    }
  }

  ghost predicate SettledBy(acts: seq<Action>, j: nat, o: Outcome) {
    exists k :: 0 <= k < |acts| && acts[k].Finish? && acts[k].j == j && acts[k].outcome == o
  }

  lemma {:induction false} OutcomeIsTheJobs(s: State, acts: seq<Action>, j: nat)
    requires ValidRun(s, acts) && !IsSettled(s, j) && IsSettled(Exec(s, acts), j)
    ensures SettledBy(acts, j, Exec(s, acts).jobs[j].phase.outcome)
    decreases |acts|
  {
    var s1, o := Next(s, acts[0]), Exec(s, acts).jobs[j].phase.outcome;
    if IsSettled(s1, j) {
      PromisesSettleOnce(s1, acts[1..], j);
      assert acts[0].Finish? && acts[0].j == j && acts[0].outcome == o;
    } else {
      OutcomeIsTheJobs(s1, acts[1..], j);
      var k :| 0 <= k < |acts[1..]| && acts[1..][k].Finish? && acts[1..][k].j == j && acts[1..][k].outcome == o;
      assert acts[k + 1] == acts[1..][k];
    }
  }

  /** What the callers of a job await is what its own settlement produced, and nothing until then. */
  lemma PromiseOutcomeIsTheJobs(cfg: Config, acts: seq<Action>, j: nat)
    requires ValidRun(Init(cfg), acts) && j < |Exec(Init(cfg), acts).sh.promises|
    ensures match Exec(Init(cfg), acts).sh.promises[j]
            case Some(o) => Settlements(acts, j) == 1 && SettledBy(acts, j, o)
            case None => Settlements(acts, j) == 0
  {
    RunKeepsInv(Init(cfg), acts);
    PromisesSettleOnce(Init(cfg), acts, j);
    if Exec(Init(cfg), acts).sh.promises[j].Some? {
      OutcomeIsTheJobs(Init(cfg), acts, j);
    }
  }

  /** A call shares the promise of the unfinalized job of its key, is refused only for want of room. */
  lemma AnswersAreExact(s: State, key: Key)
    requires Reachable(s)
    ensures var mine := exists j :: 0 <= j < |s.jobs| && Unfinalized(s.jobs[j]) && s.jobs[j].key == key;
            match Add(s.cfg, s.sh, key).1
            case Shares(j) => mine && j < |s.jobs| && s.jobs[j].key == key && Unfinalized(s.jobs[j])
            case Full => !mine && |s.sh.waiting| == s.cfg.maxQueued
            case Admitted(j) => !mine && |s.sh.waiting| < s.cfg.maxQueued && j == |s.jobs|
  {
    ReachableInv(s);
  }

  /** Every call is refused, shared or admitted; every settled job was counted and measured once. */
  lemma CallsAreConserved(s: State)
    requires Reachable(s)
    ensures s.calls == s.refused + s.sh.deduplicated + |s.jobs|
    ensures s.sh.completed + s.sh.failed == Count(s.jobs, HasSettled) == |s.recorded|
    ensures s.sh.durations == s.recorded[|s.recorded| - Min(100, |s.recorded|)..]
  {
    ReachableInv(s);
    CountSplit(s.jobs, HasSettled, SettledWell, SettledBadly);
  }

  /** Steps a job has left: to settle and to finalize. */
  function Remaining(job: Job): nat {
    match job.phase case Open => 2 case Settled(_) => 1 case Finalized(_) => 0
  }

  /** With no new calls, every schedule stops within two steps for each job. */
  lemma {:induction false} EveryScheduleStops(s: State, acts: seq<Action>)
    requires ValidRun(s, acts) && forall k :: 0 <= k < |acts| ==> !acts[k].Call?
    ensures |acts| <= Sum(s.jobs, Remaining)
    decreases |acts|
  {
    if acts != [] {
      SumUpdate(s.jobs, acts[0].j, Next(s, acts[0]).jobs[acts[0].j], Remaining);
      EveryScheduleStops(Next(s, acts[0]), acts[1..]);
    }
  }

  ghost predicate Quiescent(s: State) {
    forall a: Action :: !a.Call? ==> !Enabled(s, a)
  }

  /** And it stops with every job finalized, provided the queue was given at least one slot. */
  lemma QuiescentMeansFinalized(s: State)
    requires Reachable(s)
    ensures Quiescent(s) <==> s.cfg.concurrency == 0 || forall j :: 0 <= j < |s.jobs| ==> s.jobs[j].phase.Finalized?
  {
    ReachableInv(s);
    if s.sh.active > 0 {
      SomeJobCanMove(s);
    }
    forall j | 0 <= j < |s.jobs| && Unfinalized(s.jobs[j]) ensures s.cfg.concurrency == 0 || s.sh.active > 0 {
      CountPositive(s.jobs, j, Unfinalized);
    }
    forall a: Action | !a.Call? && Enabled(s, a)
      ensures a.j < |s.jobs| && Unfinalized(s.jobs[a.j]) && s.cfg.concurrency > 0
    {
      if a.Finish? {
        EnabledFinishHasSlot(s, a.j);
      } else {
        SettledJobIsActive(s, a.j);
      }
    }
  }

  lemma EnabledFinishHasSlot(s: State, j: nat)
    requires OrderOk(s) && SlotsOk(s) && j < |s.jobs| && Unfinalized(s.jobs[j]) && !IsWaiting(s, j)
    ensures s.sh.active > 0
  {
    YoungestAreWaiting(s);
    ActiveCoversSettled(s.jobs, |s.starts|, j);
  }

  /** If every started job were finalized, only the waiting ones would be counted. */
  lemma {:induction false} OnlyWaitingAreUnfinalized(jobs: seq<Job>, started: nat)
    requires started <= |jobs| && forall j :: 0 <= j < started ==> jobs[j].phase.Finalized?
    ensures Count(jobs, Unfinalized) <= |jobs| - started
  {
    if started < |jobs| {
      OnlyWaitingAreUnfinalized(jobs[..|jobs| - 1], started);
    } else if jobs != [] {
      OnlyWaitingAreUnfinalized(jobs[..|jobs| - 1], started - 1);
    }
  }

  lemma SomeJobCanMove(s: State)
    requires Inv(s) && s.sh.active > 0
    ensures !Quiescent(s)
  {
    if forall j :: 0 <= j < |s.starts| ==> s.jobs[j].phase.Finalized? {
      OnlyWaitingAreUnfinalized(s.jobs, |s.starts|);
    }
    YoungestAreWaiting(s);
    var j :| 0 <= j < |s.starts| && !s.jobs[j].phase.Finalized?;
    if s.jobs[j].phase.Settled? {
      assert Enabled(s, Done(j));
    } else {
      assert Enabled(s, Finish(j, Rejected(""), 0));
    }
  }
}
