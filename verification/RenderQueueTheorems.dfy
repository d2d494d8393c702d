/**
 What every run of the Rust work queue guarantees to its callers, with and without dropped callers.
*/
module RenderQueueTheorems {
  import opened Basics
  import opened Counting
  import opened Decimals
  import opened RenderQueue
  import opened RenderQueueRuns

  ghost predicate Reachable(s: State) {
    exists cfg: Config, acts: seq<Action> ::
      cfg.Valid() && ValidRun(Init(cfg), acts) && s == Exec(Init(cfg), acts)
  }

  lemma ReachableInv(s: State)
    requires Reachable(s)
    ensures Inv(s)
  {
    var cfg: Config, acts: seq<Action> :|
      cfg.Valid() && ValidRun(Init(cfg), acts) && s == Exec(Init(cfg), acts);
    RunKeepsInv(Init(cfg), acts);
  }

  // ----- bounds -----

  /** Permits bound execution, the map bounds admission, and `active` over-reports only dropped work. */
  lemma WorkIsBounded(s: State)
    requires Reachable(s)
    ensures Count(s.tasks, HoldsPermit) <= s.cfg.concurrency
    ensures |s.sh.inFlight| <= s.cfg.Capacity()
    ensures s.sh.active == Count(s.tasks, IsRunning) + Count(s.tasks, DroppedRunning)
  {
    ReachableInv(s);
    CountSplit(s.tasks, CountsAsActive, IsRunning, DroppedRunning);
  }

  /** The map holds exactly the keys with a live producer, and each has just one. */
  lemma InFlightIsLiveProducers(s: State, key: Key)
    requires Reachable(s)
    ensures key in s.sh.inFlight <==> exists i :: 0 <= i < |s.tasks| && Live(s.tasks[i]) && s.tasks[i].key == key
    ensures forall i, j ::
              (0 <= i < |s.tasks| && 0 <= j < |s.tasks| && Live(s.tasks[i]) && Live(s.tasks[j])
               && s.tasks[i].key == key && s.tasks[j].key == key) ==> i == j
  {
    ReachableInv(s);
    if key in s.sh.inFlight {
      assert EntryOk(s, key);
    }
    forall i | 0 <= i < |s.tasks| && Live(s.tasks[i]) && s.tasks[i].key == key
      ensures key in s.sh.inFlight && s.owners[s.sh.inFlight[key]] == i
    {
      assert TaskOk(s, i);
    }
  }

  /**
   Admission in terms of the calls alone: a new call joins when some live producer has its key, is
   turned away when none has and the live producers fill the queue, and produces otherwise.
  */
  lemma AdmissionIsExact(s: State, key: Key)
    requires Reachable(s)
    ensures var joins := exists i :: 0 <= i < |s.tasks| && Live(s.tasks[i]) && s.tasks[i].key == key;
            var full := Count(s.tasks, Live) == s.cfg.Capacity();
            match AfterCall(s, key).tasks[|s.tasks|].role
            case Waiter(h) =>
              && joins && h < |s.owners| && s.owners[h] < |s.tasks|
              && s.tasks[s.owners[h]].key == key && Live(s.tasks[s.owners[h]])
            case Turned => !joins && full
            case Producer(h) => !joins && !full && forall i :: 0 <= i < |s.tasks| ==> s.tasks[i].role != Producer(h)
  {
    ReachableInv(s);
    InFlightIsLiveProducers(s, key);
    if key in s.sh.inFlight {
      assert EntryOk(s, key);
    }
    forall i | 0 <= i < |s.tasks| && s.tasks[i].role.Producer? ensures s.tasks[i].role.holder < |s.sh.holders| {
      assert TaskOk(s, i);
    }
  }

  // ----- results -----

  /** The outcome a producer has settled on, from the end of its work to its return. */
  function Carried(t: Task): Option<Outcome> {
    match t.phase
    case Ended(o) => Some(o)
    case Timed(o) => Some(o)
    case Counted(o) => Some(o)
    case Stored(o) => Some(o)
    case Notified(o) => Some(o)
    case Removed(o) => Some(o)
    case Returned(o) => Some(o)
    case Dropped(at) => if at.Counted? then Some(at.outcome) else None
    case _ => None
  }

  /** Later versions of a call: same key and role, a settled outcome kept, a dropped call frozen. */
  predicate SameCall(before: Task, after: Task) {
    && after.key == before.key
    && after.role == before.role
    && (Carried(before).Some? ==> Carried(after) == Carried(before))
    && (before.phase.Dropped? ==> after == before)
  }

  lemma OwnMoveKeepsCall(s: State, a: Action)
    requires Enabled(s, a) && !a.Call?
    ensures |Next(s, a).tasks| == |s.tasks| && SameCall(s.tasks[a.i], Next(s, a).tasks[a.i])
  {
  }

  lemma StepKeepsCall(s: State, a: Action, i: nat)
    requires Enabled(s, a) && i < |s.tasks|
    ensures i < |Next(s, a).tasks| && SameCall(s.tasks[i], Next(s, a).tasks[i])
  {
    if !a.Call? && a.i == i {
      OwnMoveKeepsCall(s, a);
    } else {
      assert Next(s, a).tasks[i] == s.tasks[i];
    }
  }

  /** Whatever runs next, a call keeps its key and role, and a settled outcome is never replaced. */
  lemma {:induction false} OutcomeIsFinal(s: State, acts: seq<Action>, i: nat)
    requires ValidRun(s, acts) && i < |s.tasks|
    ensures i < |Exec(s, acts).tasks| && SameCall(s.tasks[i], Exec(s, acts).tasks[i])
    decreases |acts|
  {
    if acts != [] {
      StepKeepsCall(s, acts[0], i);
      OutcomeIsFinal(Next(s, acts[0]), acts[1..], i);
    }
  }

  /** A waiter returns precisely what the producer of its own key settled on and published. */
  lemma WaiterReturnsProducerOutcome(s: State, i: nat)
    requires Reachable(s) && i < |s.tasks|
    requires s.tasks[i].role.Waiter? && s.tasks[i].phase.Returned?
    ensures exists p :: 0 <= p < |s.tasks| && s.tasks[p].role == Producer(s.tasks[i].role.holder)
              && s.tasks[p].key == s.tasks[i].key && Published(s.tasks[p].phase)
              && Carried(s.tasks[p]) == Some(s.tasks[i].phase.outcome)
  {
    ReachableInv(s);
    assert TaskOk(s, i);
    var p := s.owners[s.tasks[i].role.holder];
    assert TaskOk(s, p);
  }

  ghost predicate Produced(acts: seq<Action>, cfg: Config, p: nat, o: Outcome) {
    exists k :: 0 <= k < |acts| && acts[k].Finish? && acts[k].i == p && o == Describe(cfg, acts[k].work)
  }

  /** A producer's outcome was either settled before the run or is what its work came to during it. */
  lemma {:induction false} OutcomeComesFromWork(s: State, acts: seq<Action>, p: nat, o: Outcome)
    requires Inv(s) && ValidRun(s, acts)
    requires var t := Exec(s, acts).tasks; p < |t| && t[p].role.Producer? && Carried(t[p]) == Some(o)
    ensures (p < |s.tasks| && Carried(s.tasks[p]) == Some(o)) || Produced(acts, s.cfg, p, o)
    decreases |acts|
  {
    if acts != [] {
      var s1 := Next(s, acts[0]);
      StepKeepsInv(s, acts[0]);
      OutcomeComesFromWork(s1, acts[1..], p, o);
      if Produced(acts[1..], s1.cfg, p, o) {
        var k :| 0 <= k < |acts[1..]| && acts[1..][k].Finish? && acts[1..][k].i == p
                 && o == Describe(s1.cfg, acts[1..][k].work);
        StepKeepsConfig(s, acts[0]);
        assert acts[k + 1] == acts[1..][k];
      } else {
        OutcomeIsFinal(s1, acts[1..], p);
        StepSettlesOnlyByWork(s, acts[0], p, o);
      }
    }
  }

  lemma StepKeepsConfig(s: State, a: Action)
    requires Enabled(s, a)
    ensures Next(s, a).cfg == s.cfg
  {
  }

  lemma OwnStepSettlesOnlyByWork(s: State, a: Action, o: Outcome)
    requires Enabled(s, a) && !a.Call? && s.tasks[a.i].role.Producer? && ProducerPhase(s.tasks[a.i].phase)
    requires Carried(Next(s, a).tasks[a.i]) == Some(o)
    ensures Carried(s.tasks[a.i]) == Some(o) || (a.Finish? && o == Describe(s.cfg, a.work))
  {
  }

  lemma StepSettlesOnlyByWork(s: State, a: Action, p: nat, o: Outcome)
    requires Shape(s) && TasksOk(s) && Enabled(s, a)
    requires p < |Next(s, a).tasks| && Next(s, a).tasks[p].role.Producer? && Carried(Next(s, a).tasks[p]) == Some(o)
    ensures (p < |s.tasks| && Carried(s.tasks[p]) == Some(o))
            || (a.Finish? && a.i == p && o == Describe(s.cfg, a.work))
  {
    if p < |s.tasks| {
      if a.Call? || a.i != p {
        assert Next(s, a).tasks[p] == s.tasks[p];
      } else {
        StepKeepsCall(s, a, p);
        assert TaskOk(s, p);
        OwnStepSettlesOnlyByWork(s, a, o);
      }
    }
  }

  /**
   End to end: whatever a call returns, in whatever interleaving, is the described result of work
   that a producer of the same key finished during the run.
  */
  lemma CallsReturnWorkOfTheirKey(cfg: Config, acts: seq<Action>, i: nat)
    requires cfg.Valid() && ValidRun(Init(cfg), acts)
    requires i < |Exec(Init(cfg), acts).tasks| && Exec(Init(cfg), acts).tasks[i].phase.Returned?
    ensures var s := Exec(Init(cfg), acts);
            exists p :: 0 <= p < |s.tasks| && s.tasks[p].role.Producer? && s.tasks[p].key == s.tasks[i].key
              && Produced(acts, cfg, p, s.tasks[i].phase.outcome)
  {
    var s := Exec(Init(cfg), acts);
    ReachableInv(s);
    assert TaskOk(s, i);
    var p := s.owners[s.tasks[i].role.holder];
    assert TaskOk(s, p);
    OutcomeComesFromWork(Init(cfg), acts, p, s.tasks[i].phase.outcome);
  }

  /**
   No lost wakeup: a waiter asleep on a published result can already resume, unless the producer is
   just between storing the result and waking its waiters.
  */
  lemma NoLostWakeup(s: State, i: nat)
    requires Reachable(s) && i < |s.tasks|
    requires s.tasks[i].phase.Parked? && HolderExists(s, i) && s.sh.holders[s.tasks[i].role.holder].result.Some?
    ensures Enabled(s, Resume(i))
            || exists p ::
                 0 <= p < |s.tasks| && s.tasks[p].role == Producer(s.tasks[i].role.holder) && Enabled(s, Wake(p))
  {
    ReachableInv(s);
    assert TaskOk(s, i);
    var p := s.owners[s.tasks[i].role.holder];
    assert TaskOk(s, p);
    if s.tasks[p].phase.Stored? {
      assert Enabled(s, Wake(p));
    }
  }

  // ----- accounting -----

  lemma {:induction false} RolesPartition(tasks: seq<Task>)
    ensures |tasks| == Count(tasks, IsRefused) + Count(tasks, IsWaiter) + Count(tasks, IsProducer)
  {
    if tasks != [] {
      RolesPartition(tasks[..|tasks| - 1]);
    }
  }

  /** Calls are rejections, joins and producers; a producer is counted at most once, as one verdict. */
  lemma CallsAreConserved(s: State)
    requires Reachable(s)
    ensures |s.tasks| == Count(s.tasks, IsRefused) + s.sh.deduplicated + |s.sh.holders|
    ensures s.sh.completed == Count(s.tasks, CountedSuccess)
    ensures s.sh.failed == Count(s.tasks, CountedFailure)
    ensures s.sh.completed + s.sh.failed == Count(s.tasks, PastTally) <= |s.sh.holders|
  {
    ReachableInv(s);
    RolesPartition(s.tasks);
    CountSplit(s.tasks, PastTally, CountedSuccess, CountedFailure);
    CountIsMonotone(s.tasks, PastTally, IsProducer);
  }

  lemma {:induction false} CountIsMonotone(tasks: seq<Task>, p: Task -> bool, q: Task -> bool)
    requires forall t :: p(t) ==> q(t)
    ensures Count(tasks, p) <= Count(tasks, q)
  {
    if tasks != [] {
      CountIsMonotone(tasks[..|tasks| - 1], p, q);
    }
  }

  /** One duration per producer past its measurement, of which the last hundred are retained in order. */
  lemma SamplesAreTheLastHundred(s: State)
    requires Reachable(s)
    ensures s.sh.durations == s.recorded[|s.recorded| - Min(100, |s.recorded|)..]
    ensures |s.recorded| == Count(s.tasks, PastRecord)
  {
    ReachableInv(s);
  }

  // ----- progress -----

  /** The steps a call takes by itself, as opposed to new calls arriving or callers giving up. */
  predicate Internal(a: Action) {
    !a.Call? && !a.Drop?
  }

  predicate Settled(t: Task) {
    t.phase.Refused? || t.phase.Returned? || t.phase.Dropped?
  }

  /** An upper bound on the steps call `i` can still take. */
  function Remaining(s: State, i: nat): nat
    requires i < |s.tasks|
  {
    match s.tasks[i].phase
    case Queued => 9
    case Permitted => 8
    case Running => 7
    case Ended(_) => 6
    case Timed(_) => 5
    case Counted(_) => 4
    case Stored(_) => 3
    case Notified(_) => 2
    case Removed(_) => 1
    case Fresh => if HolderExists(s, i) && s.sh.holders[s.tasks[i].role.holder].notifies > 0 then 2 else 5
    case Armed(seen) => if seen > 0 then 1 else 4
    case Parked(_) => 3
    case _ => 0
  }

  ghost function TotalRemaining(s: State, n: nat): nat
    requires n <= |s.tasks|
  {
    if n == 0 then 0 else TotalRemaining(s, n - 1) + Remaining(s, n - 1)
  }

  lemma {:induction false} TotalDecreases(s: State, s': State, i: nat, n: nat)
    requires |s.tasks| == |s'.tasks| && n <= |s.tasks| && i < |s.tasks|
    requires forall j :: 0 <= j < |s.tasks| ==> Remaining(s', j) <= Remaining(s, j)
    requires Remaining(s', i) < Remaining(s, i)
    ensures TotalRemaining(s', n) + (if i < n then 1 else 0) <= TotalRemaining(s, n)
  {
    if n > 0 {
      TotalDecreases(s, s', i, n - 1);
    }
  }

  lemma ProducerStepLowersOwnRemaining(s: State, a: Action)
    requires Enabled(s, a) && Internal(a)
    requires s.tasks[a.i].role.Producer? && ProducerPhase(s.tasks[a.i].phase)
    ensures a.i < |Next(s, a).tasks| && Remaining(Next(s, a), a.i) < Remaining(s, a.i)
  {
  }

  lemma WaiterStepLowersOwnRemaining(s: State, a: Action)
    requires Shape(s) && Enabled(s, a) && Internal(a)
    requires s.tasks[a.i].role.Waiter? && WaiterOk(s, a.i) && ProducerOk(s, s.owners[s.tasks[a.i].role.holder])
    ensures a.i < |Next(s, a).tasks| && Remaining(Next(s, a), a.i) < Remaining(s, a.i)
  {
  }

  lemma StepLowersOwnRemaining(s: State, a: Action)
    requires Shape(s) && TasksOk(s) && Enabled(s, a) && Internal(a)
    ensures a.i < |Next(s, a).tasks| && Remaining(Next(s, a), a.i) < Remaining(s, a.i)
  {
    assert TaskOk(s, a.i);
    if s.tasks[a.i].role.Waiter? {
      assert TaskOk(s, s.owners[s.tasks[a.i].role.holder]);
      WaiterStepLowersOwnRemaining(s, a);
    } else {
      ProducerStepLowersOwnRemaining(s, a);
    }
  }

  /** Another call's step leaves a call where it was, and can only bring it closer to waking. */
  lemma StepLowersNoOther(s: State, s': State, i: nat, j: nat)
    requires Shape(s) && i < |s.tasks| && StepOf(s, s', i) && j < |s.tasks| && j != i
    ensures Remaining(s', j) <= Remaining(s, j)
  {
    assert s'.tasks[j] == s.tasks[j];
    if HolderExists(s, j) {
      assert HolderStep(s, s', i, s.tasks[j].role.holder);
    }
  }

  lemma StepLowersRemaining(s: State, a: Action)
    requires Shape(s) && TasksOk(s) && Enabled(s, a) && Internal(a)
    ensures |Next(s, a).tasks| == |s.tasks|
    ensures TotalRemaining(Next(s, a), |s.tasks|) < TotalRemaining(s, |s.tasks|)
  {
    assert TaskOk(s, a.i);
    OwnStep(s, a);
    StepLowersOwnRemaining(s, a);
    forall j | 0 <= j < |s.tasks| ensures Remaining(Next(s, a), j) <= Remaining(s, j) {
      if j != a.i {
        StepLowersNoOther(s, Next(s, a), a.i, j);
      }
    }
    TotalDecreases(s, Next(s, a), a.i, |s.tasks|);
  }

  /** Without new calls or dropped callers every schedule stops, after at most the total of `Remaining`. */
  lemma {:induction false} EveryScheduleStops(s: State, acts: seq<Action>)
    requires Inv(s) && ValidRun(s, acts) && forall k :: 0 <= k < |acts| ==> Internal(acts[k])
    ensures |acts| <= TotalRemaining(s, |s.tasks|)
    decreases |acts|
  {
    if acts != [] {
      StepLowersRemaining(s, acts[0]);
      StepKeepsInv(s, acts[0]);
      EveryScheduleStops(Next(s, acts[0]), acts[1..]);
    }
  }

  /** A waiter whose producer was dropped: nobody is left to wake it. */
  ghost predicate Orphaned(s: State, i: nat)
    requires i < |s.tasks|
  {
    && s.tasks[i].role.Waiter? && s.tasks[i].phase.Parked?
    && exists p ::
         0 <= p < |s.tasks| && s.tasks[p].role == Producer(s.tasks[i].role.holder) && s.tasks[p].phase.Dropped?
  }

  ghost predicate Quiescent(s: State) {
    forall a :: Internal(a) ==> !Enabled(s, a)
  }

  /** A queued producer finds a permit, or one of the calls holding a permit can move. */
  lemma QueuedIsNotStuck(s: State, i: nat)
    requires Inv(s) && i < |s.tasks| && s.tasks[i].phase.Queued?
    ensures !Quiescent(s)
  {
    if s.sh.permits > 0 {
      assert Enabled(s, Acquire(i));
    } else {
      var j := CountWitness(s.tasks, HoldsPermit);
      ProducerIsNotStuck(s, j);
    }
  }

  lemma ProducerIsNotStuck(s: State, i: nat)
    requires Inv(s) && i < |s.tasks| && HoldsPermit(s.tasks[i])
    ensures !Quiescent(s)
  {
    assert TaskOk(s, i);
    var a := match s.tasks[i].phase
      case Permitted => Start(i)
      case Running => Finish(i, TimedOut)
      case Ended(_) => Record(i, 0)
      case Timed(_) => Tally(i)
      case Counted(_) => Publish(i)
      case Stored(_) => Wake(i)
      case Notified(_) => Release(i)
      case _ => Return(i);
    assert Internal(a) && Enabled(s, a);
  }

  lemma WaiterIsNotStuck(s: State, i: nat)
    requires Inv(s) && i < |s.tasks| && s.tasks[i].role.Waiter? && !Settled(s.tasks[i])
    ensures Orphaned(s, i) || !Quiescent(s)
  {
    assert TaskOk(s, i);
    var p := s.owners[s.tasks[i].role.holder];
    assert TaskOk(s, p);
    if s.tasks[i].phase.Fresh? {
      assert Enabled(s, Arm(i));
    } else if s.tasks[i].phase.Armed? {
      assert Enabled(s, Check(i));
    } else if s.sh.holders[s.tasks[i].role.holder].notifies > 0 {
      assert Enabled(s, Resume(i));
    } else if s.tasks[p].phase.Queued? {
      QueuedIsNotStuck(s, p);
    } else if HoldsPermit(s.tasks[p]) {
      ProducerIsNotStuck(s, p);
    }
  }

  lemma UnsettledIsNotStuck(s: State, i: nat)
    requires Inv(s) && i < |s.tasks| && !Settled(s.tasks[i])
    ensures Orphaned(s, i) || !Quiescent(s)
  {
    assert TaskOk(s, i);
    if s.tasks[i].role.Waiter? {
      WaiterIsNotStuck(s, i);
    } else if s.tasks[i].phase.Queued? {
      QueuedIsNotStuck(s, i);
    } else {
      ProducerIsNotStuck(s, i);
    }
  }

  lemma OrphanCannotMove(s: State, i: nat)
    requires Inv(s) && i < |s.tasks| && Orphaned(s, i)
    ensures !Enabled(s, Resume(i))
  {
    var p :| 0 <= p < |s.tasks| && s.tasks[p].role == Producer(s.tasks[i].role.holder) && s.tasks[p].phase.Dropped?;
    assert TaskOk(s, p) && TaskOk(s, i);
  }

  /**
   Nothing can move exactly when every call has returned, been refused or been dropped, save the
   waiters whose producer was dropped.  In particular, with no dropped producers every call returns.
  */
  lemma QuiescentMeansSettled(s: State)
    requires Reachable(s)
    ensures Quiescent(s) <==> forall i :: 0 <= i < |s.tasks| ==> Settled(s.tasks[i]) || Orphaned(s, i)
  {
    ReachableInv(s);
    if Quiescent(s) {
      forall i | 0 <= i < |s.tasks| ensures Settled(s.tasks[i]) || Orphaned(s, i) {
        if !Settled(s.tasks[i]) {
          UnsettledIsNotStuck(s, i);
        }
      }
    }
    if forall i :: 0 <= i < |s.tasks| ==> Settled(s.tasks[i]) || Orphaned(s, i) {
      forall a | Internal(a) ensures !Enabled(s, a) {
        if a.i < |s.tasks| && !Settled(s.tasks[a.i]) {
          OrphanCannotMove(s, a.i);
        }
      }
    }
  }

  // ----- dropped producers -----

  /**
   A caller that drops a producer's future before its key was removed orphans the key: it stays in
   the map in every later state, no call that joins it ever returns, and it keeps its share of the
   queue's capacity.
  */
  lemma DroppedProducerOrphansItsKey(s: State, acts: seq<Action>, p: nat)
    requires Reachable(s) && ValidRun(s, acts)
    requires p < |s.tasks| && s.tasks[p].role.Producer? && s.tasks[p].phase.Dropped?
    ensures var s', key, h := Exec(s, acts), s.tasks[p].key, s.tasks[p].role.holder;
            && key in s'.sh.inFlight && s'.sh.inFlight[key] == h
            && (forall i :: 0 <= i < |s'.tasks| && s'.tasks[i].role == Waiter(h) ==> !s'.tasks[i].phase.Returned?)
            && Admit(s'.cfg, s'.sh, key).1 == Join(h)
  {
    ReachableInv(s);
    RunKeepsInv(s, acts);
    OutcomeIsFinal(s, acts, p);
    var s' := Exec(s, acts);
    assert TaskOk(s', p);
    forall i | 0 <= i < |s'.tasks| && s'.tasks[i].role == Waiter(s.tasks[p].role.holder)
      ensures !s'.tasks[i].phase.Returned?
    {
      assert TaskOk(s', i);
    }
  }

  // ----- what callers are told -----

  /** A timeout names its limit in milliseconds, as a plain decimal numeral. */
  lemma TimeoutNamesItsLimit(cfg: Config) returns (digits: string)
    ensures Describe(cfg, TimedOut) == Failure(cfg.workLabel + " exceeded " + digits + "ms")
    ensures AllDigits(digits) && ValueOf(digits) == cfg.timeoutMs && (cfg.timeoutMs > 0 ==> digits[0] != '0')
  {
    digits := Digits(cfg.timeoutMs);
    DigitsReadBack(cfg.timeoutMs);
    DigitsHaveNoLeadingZero(cfg.timeoutMs);
  }

  /** Errors of different work are told apart, and none is taken for a timeout's message of another limit. */
  lemma ErrorsAreKept(cfg: Config, a: string, b: string)
    ensures Describe(cfg, Errored(a)) == Describe(cfg, Errored(b)) <==> a == b
    ensures Describe(cfg, Errored(a)).Failure? && cfg.workLabel + " failed: " <= Describe(cfg, Errored(a)).message
  {
    var prefix := cfg.workLabel + " failed: ";
    if prefix + a == prefix + b {
      assert a == (prefix + a)[|prefix|..] && b == (prefix + b)[|prefix|..];
    }
  }
}
