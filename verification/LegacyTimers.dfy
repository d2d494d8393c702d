/**
 Render attempts and timers in the Node service.  A job that times out gives up its slot at once, while
 its attempt runs on until it ends or its own timer fires, beside the attempt of the job that takes the
 slot.  The attempt's timer is the shorter one, so a slot never has more than two attempts under way.
*/
module LegacyTimers {
  import opened Basics
  import opened Counting
  import opened LegacyService
  import opened LegacyServiceRuns
  import C = RenderCache
  import Q = EventQueue
  import QR = EventQueueRuns

  predicate UnderWay(w: Work) {
    w.phase.Trying?
  }

  predicate InTime(w: Work) {
    w.phase.Trying? && !w.aborted
  }

  /** The attempt of a job that has timed out. */
  predicate Overdue(w: Work) {
    w.phase.Trying? && w.aborted
  }

  /** The attempt's timer is the shorter one except for queue timers below two milliseconds. */
  lemma AttemptTimerIsShorter(timeoutMs: nat)
    ensures AttemptMs(timeoutMs) < timeoutMs <==> timeoutMs >= 2
  {
  }

  // ----- who holds a slot when -----

  /** The job is known to have held its slot at time `t`: it holds one still, or began an attempt later. */
  predicate Occupies(w: Work, t: nat) {
    !w.phase.Unstarted? && w.startedAt <= t && (HoldsSlot(w) || t < w.begunAt)
  }

  function At(t: nat): Work -> bool {
    w => Occupies(w, t)
  }

  ghost predicate WorkTimed(s: State, w: Work) {
    && (!w.phase.Unstarted? ==> w.startedAt <= w.begunAt <= s.clock)
    && (w.aborted ==> !w.phase.Unstarted? && w.startedAt + s.q.cfg.timeoutMs <= s.clock)
    && (w.phase.Trying? ==>
          s.clock <= w.begunAt + AttemptMs(s.q.cfg.timeoutMs) + Lateness(s.q.cfg.timeoutMs))
  }

  ghost predicate WorksTimed(s: State) {
    forall j :: 0 <= j < |s.works| ==> WorkTimed(s, s.works[j])
  }

  /** At no time were more slots held than there are. */
  ghost predicate SlotsSuffice(s: State) {
    forall t: nat :: Count(s.works, At(t)) <= s.q.cfg.concurrency
  }

  ghost predicate Timed(s: State) {
    WorksTimed(s) && SlotsSuffice(s)
  }

  lemma SameTimes(s: State, s': State)
    requires Timed(s) && s'.works == s.works && s'.clock == s.clock && s'.q.cfg == s.q.cfg
    ensures Timed(s')
  {
    forall j | 0 <= j < |s'.works| ensures WorkTimed(s', s'.works[j]) {
      assert WorkTimed(s, s.works[j]);
    }
    forall t: nat ensures Count(s'.works, At(t)) <= s'.q.cfg.concurrency {
      assert Count(s.works, At(t)) <= s.q.cfg.concurrency;
    }
  }

  lemma SubmitKeepsTimes(s: State, key: string, record: Record)
    requires Timed(s)
    ensures Timed(Submit(s, key, record).0)
  {
    var s' := Submit(s, key, record).0;
    var idle := Work(record, Unstarted, 0, false, 0, 0);
    if s'.works == s.works {
      SameTimes(s, s');
    } else {
      assert s'.works == s.works + [idle];
      forall j | 0 <= j < |s'.works| ensures WorkTimed(s', s'.works[j]) {
        if j < |s.works| {
          assert WorkTimed(s, s.works[j]);
        }
      }
      forall t: nat ensures Count(s'.works, At(t)) <= s'.q.cfg.concurrency {
        CountAppend(s.works, idle, At(t));
        assert Count(s.works, At(t)) <= s.q.cfg.concurrency;
      }
    }
  }

  lemma CallMoveKeepsTimes(s: State, a: Action)
    requires Timed(s) && Enabled(s, a) && (a.Direct? || a.LookupOk?)
    ensures Timed(Next(s, a))
  {
    if a.Direct? {
      var (looked, hit) := LookUp(s, a.key, a.now);
      SameTimes(s, looked);
      SubmitKeepsTimes(looked, a.key, a.record);
      SameTimes(if hit.Some? then looked else Submit(looked, a.key, a.record).0, Next(s, a));
    } else {
      SubmitKeepsTimes(s, s.lookups[a.p].key, a.record);
      SameTimes(Submit(s, s.lookups[a.p].key, a.record).0, Next(s, a));
    }
  }

  /** One work moves on, to occupy no more than it did. */
  lemma WorkMovesOn(s: State, s': State, j: nat, w: Work)
    requires Timed(s) && j < |s.works| && s'.works == s.works[j := w]
    requires s'.clock == s.clock && s'.q.cfg == s.q.cfg && WorkTimed(s', w)
    requires forall t: nat :: Occupies(w, t) ==> Occupies(s.works[j], t)
    ensures Timed(s')
  {
    forall i | 0 <= i < |s'.works| ensures WorkTimed(s', s'.works[i]) {
      assert WorkTimed(s, s.works[i]);
    }
    forall t: nat ensures Count(s'.works, At(t)) <= s'.q.cfg.concurrency {
      CountUpdate(s.works, j, w, At(t));
      assert Count(s.works, At(t)) <= s.q.cfg.concurrency;
    }
  }

  lemma WorkMoveKeepsTimes(s: State, a: Action)
    requires Timed(s) && Enabled(s, a) && (a.Draw? || a.Break? || a.Recover? || a.Timeout?)
    ensures Timed(Next(s, a))
  {
    var s' := Next(s, a);
    assert WorkTimed(s, s.works[a.j]);
    WorkMovesOn(s, s', a.j, s'.works[a.j]);
  }

  /** A new holder changes nothing about earlier times, and from now on only holders count. */
  lemma BeginKeepsTimes(s: State, j: nat)
    requires Timed(s) && Enabled(s, Begin(j))
    requires Inv(Next(s, Begin(j))) && SlotsHeld(Next(s, Begin(j)))
    ensures Timed(Next(s, Begin(j)))
  {
    var s' := Next(s, Begin(j));
    assert WorkTimed(s, s.works[j]);
    forall i | 0 <= i < |s'.works| ensures WorkTimed(s', s'.works[i]) {
      assert WorkTimed(s, s.works[i]);
    }
    forall t: nat ensures Count(s'.works, At(t)) <= s'.q.cfg.concurrency {
      if t < s.clock {
        CountUpdate(s.works, j, s'.works[j], At(t));
        assert Count(s.works, At(t)) <= s.q.cfg.concurrency;
      } else {
        OnlyHoldersFromNowOn(s', t);
      }
    }
  }

  lemma OnlyHoldersFromNowOn(s: State, t: nat)
    requires Inv(s) && SlotsHeld(s) && WorksTimed(s) && s.clock <= t
    ensures Count(s.works, At(t)) <= s.q.cfg.concurrency
  {
    forall i | 0 <= i < |s.works| && At(t)(s.works[i]) ensures HoldsSlot(s.works[i]) {
      assert WorkTimed(s, s.works[i]);
    }
    CountMonotone(s.works, At(t), HoldsSlot);
    SlotsBoundRenders(s);
  }

  lemma TickKeepsTimes(s: State, ms: nat)
    requires Timed(s) && Enabled(s, Tick(ms))
    ensures Timed(Next(s, Tick(ms)))
  {
    var s' := Next(s, Tick(ms));
    forall j | 0 <= j < |s'.works| ensures WorkTimed(s', s'.works[j]) {
      assert WorkTimed(s, s.works[j]);
    }
    forall t: nat ensures Count(s'.works, At(t)) <= s'.q.cfg.concurrency {
      assert Count(s.works, At(t)) <= s.q.cfg.concurrency;
    }
  }

  lemma StepKeepsTimes(s: State, a: Action)
    requires Inv(s) && SlotsHeld(s) && Timed(s) && Enabled(s, a)
    ensures Timed(Next(s, a))
  {
    if a.Direct? || a.LookupOk? {
      CallMoveKeepsTimes(s, a);
    } else if a.Draw? || a.Break? || a.Recover? || a.Timeout? {
      WorkMoveKeepsTimes(s, a);
    } else if a.Begin? {
      StepKeepsInv(s, a);
      StepKeepsSlots(s, a);
      BeginKeepsTimes(s, a.j);
    } else if a.Tick? {
      TickKeepsTimes(s, a.ms);
    } else {
      SameTimes(s, Next(s, a));
    }
  }

  lemma StepKeepsConfig(s: State, a: Action)
    requires Enabled(s, a)
    ensures Next(s, a).q.cfg == s.q.cfg
  {
  }

  lemma {:induction false} RunKeepsTimes(s: State, acts: seq<Action>)
    requires Inv(s) && SlotsHeld(s) && Timed(s) && ValidRun(s, acts)
    ensures var end := Exec(s, acts); Inv(end) && SlotsHeld(end) && Timed(end) && end.q.cfg == s.q.cfg
    decreases |acts|
  {
    if acts != [] {
      StepKeepsInv(s, acts[0]);
      StepKeepsSlots(s, acts[0]);
      StepKeepsTimes(s, acts[0]);
      StepKeepsConfig(s, acts[0]);
      RunKeepsTimes(Next(s, acts[0]), acts[1..]);
    }
  }

  // ----- the bound -----

  /**
   Overdue attempts began within the length of the queue's timer, and their jobs started before that: at
   that time all of them held slots at once.
  */
  lemma OverdueHeldSlotsTogether(s: State)
    requires Timed(s) && s.q.cfg.timeoutMs >= 2
    ensures Count(s.works, Overdue) <= s.q.cfg.concurrency
  {
    if Count(s.works, Overdue) > 0 {
      var i := CountWitness(s.works, Overdue);
      assert WorkTimed(s, s.works[i]);
      var t: nat := s.clock - s.q.cfg.timeoutMs;
      forall j | 0 <= j < |s.works| && Overdue(s.works[j]) ensures At(t)(s.works[j]) {
        assert WorkTimed(s, s.works[j]);
      }
      CountMonotone(s.works, Overdue, At(t));
    }
  }

  /** In every run there are at most two attempts under way for each slot, one of them overdue. */
  lemma AtMostTwoAttemptsForEachSlot(lim: C.Limits, cfg: Q.Config, acts: seq<Action>)
    requires ValidRun(Init(lim, cfg), acts) && cfg.timeoutMs >= 2
    ensures var works := Exec(Init(lim, cfg), acts).works;
            && Count(works, InTime) <= cfg.concurrency
            && Count(works, Overdue) <= cfg.concurrency
            && Count(works, UnderWay) <= 2 * cfg.concurrency
  {
    InitIsFresh(lim, cfg);
    RunKeepsTimes(Init(lim, cfg), acts);
    var s := Exec(Init(lim, cfg), acts);
    SlotsBoundRenders(s);
    CountMonotone(s.works, InTime, HoldsSlot);
    OverdueHeldSlotsTogether(s);
    CountSplit(s.works, UnderWay, InTime, Overdue);
  }

  // ----- a run that attains it -----

  const SAMPLE := Record([])
  const IDLE := Work(SAMPLE, Unstarted, 0, false, 0, 0)
  const BROKEN := Work(SAMPLE, Recycling(""), 1, false, 0, 0)

  /** A first attempt begun at this time, together with its job. */
  function First(time: nat): Work {
    Work(SAMPLE, Trying, 1, false, time, time)
  }

  /** The second attempt of a job started at time 0. */
  function Second(time: nat, aborted: bool): Work {
    Work(SAMPLE, Trying, 2, aborted, 0, time)
  }

  /** A different key for each job. */
  function Name(j: nat): string {
    seq(j, _ => 'x')
  }

  lemma NamesDiffer(j: nat, k: nat)
    ensures Name(j) == Name(k) ==> j == k
  {
    assert |Name(j)| == j && |Name(k)| == k;
  }

  ghost predicate Reaches(lim: C.Limits, cfg: Q.Config, s: State) {
    exists acts: seq<Action> :: ValidRun(Init(lim, cfg), acts) && Exec(Init(lim, cfg), acts) == s
  }

  lemma StepReaches(lim: C.Limits, cfg: Q.Config, s: State, a: Action)
    requires Reaches(lim, cfg, s) && Enabled(s, a)
    ensures Reaches(lim, cfg, Next(s, a))
  {
    var acts: seq<Action> :| ValidRun(Init(lim, cfg), acts) && Exec(Init(lim, cfg), acts) == s;
    OneStep(s, a);
    RunsChain(Init(lim, cfg), acts, [a]);
  }

  lemma ReachedIsSound(lim: C.Limits, cfg: Q.Config, s: State)
    requires Reaches(lim, cfg, s)
    ensures Inv(s)
  {
    assert Reachable(s);
    ReachableInv(s);
  }

  /** Some run ends with these works and jobs, nothing waiting and nothing cached. */
  ghost predicate Crew(lim: C.Limits, cfg: Q.Config, s: State, active: nat, works: seq<Work>, jobs: seq<QR.Job>) {
    && Reaches(lim, cfg, s) && s.q.cfg == cfg && s.works == works && s.q.jobs == jobs
    && s.q.sh.waiting == [] && s.cache.entries == [] && s.q.sh.active == active
  }

  lemma AdmitOne(lim: C.Limits, cfg: Q.Config, s: State, active: nat, works: seq<Work>, jobs: seq<QR.Job>)
    returns (s': State)
    requires Crew(lim, cfg, s, active, works, jobs) && active < cfg.concurrency && cfg.maxQueued >= 1
    requires forall j :: 0 <= j < |jobs| ==> jobs[j].key == Name(j)
    ensures Crew(lim, cfg, s', active + 1, works + [IDLE], jobs + [QR.Job(Name(|jobs|), QR.Open)])
    ensures s'.clock == s.clock
  {
    ReachedIsSound(lim, cfg, s);
    if Name(|jobs|) in s.q.sh.inFlight {
      NamesDiffer(s.q.sh.inFlight[Name(|jobs|)], |jobs|);
    }
    StepReaches(lim, cfg, s, Direct(Name(|jobs|), SAMPLE, 0));
    s' := Next(s, Direct(Name(|jobs|), SAMPLE, 0));
  }

  lemma BeginOne(lim: C.Limits, cfg: Q.Config, s: State, active: nat, works: seq<Work>, jobs: seq<QR.Job>, j: nat)
    returns (s': State)
    requires Crew(lim, cfg, s, active, works, jobs) && j < |works| == |jobs| && works[j] == IDLE
    ensures Crew(lim, cfg, s', active, works[j := First(s.clock)], jobs) && s'.clock == s.clock
  {
    StepReaches(lim, cfg, s, Begin(j));
    s' := Next(s, Begin(j));
  }

  lemma BreakOne(lim: C.Limits, cfg: Q.Config, s: State, active: nat, works: seq<Work>, jobs: seq<QR.Job>, j: nat)
    returns (s': State)
    requires Crew(lim, cfg, s, active, works, jobs) && j < |works| == |jobs| && works[j] == First(0)
    ensures Crew(lim, cfg, s', active, works[j := BROKEN], jobs) && s'.clock == s.clock
  {
    StepReaches(lim, cfg, s, Break(j, ""));
    s' := Next(s, Break(j, ""));
  }

  lemma RecoverOne(lim: C.Limits, cfg: Q.Config, s: State, active: nat, works: seq<Work>, jobs: seq<QR.Job>, j: nat)
    returns (s': State)
    requires Crew(lim, cfg, s, active, works, jobs) && j < |works| == |jobs| && works[j] == BROKEN
    ensures Crew(lim, cfg, s', active, works[j := Second(s.clock, false)], jobs) && s'.clock == s.clock
  {
    StepReaches(lim, cfg, s, Recover(j));
    s' := Next(s, Recover(j));
  }

  function Gone(job: QR.Job): QR.Job {
    QR.Job(job.key, QR.Finalized(Q.Rejected("")))
  }

  function Failed(job: QR.Job): QR.Job {
    QR.Job(job.key, QR.Settled(Q.Rejected("")))
  }

  lemma TimeOutOne(
      lim: C.Limits, cfg: Q.Config, s: State, active: nat, works: seq<Work>, jobs: seq<QR.Job>, j: nat, time: nat)
    returns (s': State)
    requires Crew(lim, cfg, s, active, works, jobs) && j < |works| == |jobs| && cfg.timeoutMs <= s.clock
    requires works[j] == Second(time, false) && jobs[j].phase.Open?
    ensures Crew(lim, cfg, s', active, works[j := Second(time, true)], jobs[j := Failed(jobs[j])])
    ensures s'.clock == s.clock
  {
    ReachedIsSound(lim, cfg, s);
    StepReaches(lim, cfg, s, Timeout(j, "", 0));
    s' := Next(s, Timeout(j, "", 0));
  }

  lemma FreeOne(lim: C.Limits, cfg: Q.Config, s: State, active: nat, works: seq<Work>, jobs: seq<QR.Job>, j: nat)
    returns (s': State)
    requires Crew(lim, cfg, s, active, works, jobs) && j < |works| == |jobs|
    requires jobs[j].phase == QR.Settled(Q.Rejected(""))
    ensures active > 0 && Crew(lim, cfg, s', active - 1, works, jobs[j := Gone(jobs[j])]) && s'.clock == s.clock
  {
    ReachedIsSound(lim, cfg, s);
    CountPositive(jobs, j, QR.Unfinalized);
    StepReaches(lim, cfg, s, Finalize(j));
    s' := Next(s, Finalize(j));
  }

  lemma PassTime(lim: C.Limits, cfg: Q.Config, s: State, active: nat, works: seq<Work>, jobs: seq<QR.Job>, ms: nat)
    returns (s': State)
    requires Crew(lim, cfg, s, active, works, jobs) && OnTime(s, s.clock + ms)
    ensures Crew(lim, cfg, s', active, works, jobs) && s'.clock == s.clock + ms
  {
    StepReaches(lim, cfg, s, Tick(ms));
    s' := Next(s, Tick(ms));
  }

  lemma OneGivesUpItsSlot(
      lim: C.Limits, cfg: Q.Config, s: State, active: nat, works: seq<Work>, jobs: seq<QR.Job>, j: nat, time: nat)
    returns (s': State)
    requires Crew(lim, cfg, s, active, works, jobs) && j < |works| == |jobs| && cfg.timeoutMs <= s.clock
    requires works[j] == Second(time, false) && jobs[j].phase.Open?
    ensures active > 0 && s'.clock == s.clock
    ensures Crew(lim, cfg, s', active - 1, works[j := Second(time, true)], jobs[j := Gone(jobs[j])])
  {
    s' := TimeOutOne(lim, cfg, s, active, works, jobs, j, time);
    s' := FreeOne(lim, cfg, s', active, works[j := Second(time, true)], jobs[j := Failed(jobs[j])], j);
    assert jobs[j := Failed(jobs[j])][j := Gone(jobs[j])] == jobs[j := Gone(jobs[j])];
  }

  lemma OneTakesASlot(lim: C.Limits, cfg: Q.Config, s: State, active: nat, works: seq<Work>, jobs: seq<QR.Job>)
    returns (s': State)
    requires Crew(lim, cfg, s, active, works, jobs) && active < cfg.concurrency && cfg.maxQueued >= 1
    requires |works| == |jobs| && forall j :: 0 <= j < |jobs| ==> jobs[j].key == Name(j)
    ensures s'.clock == s.clock
    ensures Crew(lim, cfg, s', active + 1, works + [First(s.clock)], jobs + [QR.Job(Name(|jobs|), QR.Open)])
  {
    s' := AdmitOne(lim, cfg, s, active, works, jobs);
    s' := BeginOne(lim, cfg, s', active + 1, works + [IDLE], jobs + [QR.Job(Name(|jobs|), QR.Open)], |works|);
    assert (works + [IDLE])[|works| := First(s.clock)] == works + [First(s.clock)];
  }

  // First every slot is taken by a job whose first attempt fails at once.

  function AllBroken(k: nat): seq<Work> {
    seq(k, _ => BROKEN)
  }

  function AllOpen(k: nat): seq<QR.Job> {
    seq(k, (j: nat) => QR.Job(Name(j), QR.Open))
  }

  lemma {:induction false} BreakAll(lim: C.Limits, cfg: Q.Config, k: nat) returns (s: State)
    requires k <= cfg.concurrency && cfg.maxQueued >= 1
    ensures Crew(lim, cfg, s, k, AllBroken(k), AllOpen(k)) && s.clock == 0
  {
    if k == 0 {
      s := Init(lim, cfg);
      assert ValidRun(s, []) && Exec(s, []) == s;
    } else {
      var m := k - 1;
      s := BreakAll(lim, cfg, m);
      s := OneTakesASlot(lim, cfg, s, m, AllBroken(m), AllOpen(m));
      assert AllOpen(m) + [QR.Job(Name(m), QR.Open)] == AllOpen(k);
      s := BreakOne(lim, cfg, s, k, AllBroken(m) + [First(0)], AllOpen(k), m);
      assert (AllBroken(m) + [First(0)])[m := BROKEN] == AllBroken(k);
    }
  }

  // The browser restarts take until just before the queue's timer is due; then all try again.

  function SomeRetrying(c: nat, k: nat, time: nat): seq<Work> {
    seq(c, (j: nat) => if j < k then Second(time, false) else BROKEN)
  }

  lemma {:induction false} RetryAll(lim: C.Limits, cfg: Q.Config, k: nat, time: nat) returns (s: State)
    requires k <= cfg.concurrency && cfg.maxQueued >= 1
    ensures Crew(lim, cfg, s, cfg.concurrency, SomeRetrying(cfg.concurrency, k, time), AllOpen(cfg.concurrency))
    ensures s.clock == time
  {
    var c := cfg.concurrency;
    if k == 0 {
      s := BreakAll(lim, cfg, c);
      s := PassTime(lim, cfg, s, c, AllBroken(c), AllOpen(c), time);
      assert AllBroken(c) == SomeRetrying(c, 0, time);
    } else {
      s := RetryAll(lim, cfg, k - 1, time);
      s := RecoverOne(lim, cfg, s, c, SomeRetrying(c, k - 1, time), AllOpen(c), k - 1);
      assert SomeRetrying(c, k - 1, time)[k - 1 := Second(time, false)] == SomeRetrying(c, k, time);
    }
  }

  // One after another the jobs time out, and new jobs take their slots.

  function Replaced(c: nat, k: nat, time: nat): seq<Work> {
    seq(c + k, (j: nat) => if j < c then Second(time, j < k) else First(time + 1))
  }

  function ReplacedJobs(c: nat, k: nat): seq<QR.Job> {
    seq(c + k, (j: nat) => if j < k then Gone(QR.Job(Name(j), QR.Open)) else QR.Job(Name(j), QR.Open))
  }

  /** What becomes of works and jobs when job `k` goes and another comes. */
  lemma ReplacedGrows(c: nat, k: nat, time: nat)
    requires k < c
    ensures var works, jobs := Replaced(c, k, time), ReplacedJobs(c, k);
            && works[k] == Second(time, false) && jobs[k] == QR.Job(Name(k), QR.Open)
            && works[k := Second(time, true)] + [First(time + 1)] == Replaced(c, k + 1, time)
            && jobs[k := Gone(jobs[k])] + [QR.Job(Name(c + k), QR.Open)] == ReplacedJobs(c, k + 1)
            && forall j :: 0 <= j < c + k ==> jobs[j].key == Name(j)
  {
  }

  lemma OneIsReplaced(lim: C.Limits, cfg: Q.Config, s: State, k: nat, time: nat) returns (s': State)
    requires k < cfg.concurrency && cfg.maxQueued >= 1 && cfg.timeoutMs <= s.clock == time + 1
    requires Crew(lim, cfg, s, cfg.concurrency, Replaced(cfg.concurrency, k, time), ReplacedJobs(cfg.concurrency, k))
    ensures Crew(lim, cfg, s', cfg.concurrency, Replaced(cfg.concurrency, k + 1, time),
                 ReplacedJobs(cfg.concurrency, k + 1))
    ensures s'.clock == s.clock
  {
    var c := cfg.concurrency;
    var works, jobs := Replaced(c, k, time), ReplacedJobs(c, k);
    ReplacedGrows(c, k, time);
    s' := OneGivesUpItsSlot(lim, cfg, s, c, works, jobs, k, time);
    s' := OneTakesASlot(lim, cfg, s', c - 1, works[k := Second(time, true)], jobs[k := Gone(jobs[k])]);
  }

  lemma {:induction false} ReplaceAll(lim: C.Limits, cfg: Q.Config, k: nat, time: nat) returns (s: State)
    requires k <= cfg.concurrency && cfg.maxQueued >= 1 && cfg.timeoutMs == time + 1
    ensures Crew(lim, cfg, s, cfg.concurrency, Replaced(cfg.concurrency, k, time), ReplacedJobs(cfg.concurrency, k))
    ensures s.clock == time + 1
  {
    var c := cfg.concurrency;
    if k == 0 {
      s := RetryAll(lim, cfg, c, time);
      assert forall j :: 0 <= j < c ==> s.works[j] == SomeRetrying(c, c, time)[j] == Second(time, false);
      s := PassTime(lim, cfg, s, c, SomeRetrying(c, c, time), AllOpen(c), 1);
      assert SomeRetrying(c, c, time) == Replaced(c, 0, time) && AllOpen(c) == ReplacedJobs(c, 0);
    } else {
      s := ReplaceAll(lim, cfg, k - 1, time);
      s := OneIsReplaced(lim, cfg, s, k - 1, time);
    }
  }

  /**
   The bound is attained for every number of slots: the second attempt of each job that has timed out is
   under way beside the first attempt of the job that took its slot.
  */
  lemma TwoAttemptsForEachSlotAreReached(lim: C.Limits, cfg: Q.Config) returns (acts: seq<Action>)
    requires cfg.maxQueued >= 1 && cfg.timeoutMs >= 1
    ensures ValidRun(Init(lim, cfg), acts)
    ensures Count(Exec(Init(lim, cfg), acts).works, UnderWay) == 2 * cfg.concurrency
  {
    var c, time: nat := cfg.concurrency, cfg.timeoutMs - 1;
    var s := ReplaceAll(lim, cfg, c, time);
    assert forall j :: 0 <= j < 2 * c ==>
      Replaced(c, c, time)[j] == if j < c then Second(time, j < c) else First(time + 1);
    CountAll(s.works, UnderWay);
    acts :| ValidRun(Init(lim, cfg), acts) && Exec(Init(lim, cfg), acts) == s;
  }

  /** Two fifths of the queue's timer, but from 1 to 6000 milliseconds. */
  lemma AttemptTimerIs(timeoutMs: nat)
    ensures timeoutMs >= 15_000 ==> AttemptMs(timeoutMs) == 6000
    ensures 3 <= timeoutMs < 15_000 ==>
              5 * AttemptMs(timeoutMs) <= 2 * timeoutMs < 5 * AttemptMs(timeoutMs) + 5
    ensures timeoutMs < 3 ==> AttemptMs(timeoutMs) == 1
  {
  }
}
