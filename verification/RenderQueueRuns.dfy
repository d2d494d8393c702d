/**
 Interleavings of concurrent calls to the Rust work queue.

 A state holds the queue's shared fields and, for every call ever made, the point that call has
 reached.  An action is one call executing one region that does not yield; any order of enabled
 actions is a run.  `Notify::notified` observes every `notify_waiters` made after it was created,
 so an armed waiter remembers the count it saw.
*/
module RenderQueueRuns {
  import opened Basics
  import opened Counting
  import opened RenderQueue

  datatype Role = Turned | Waiter(holder: nat) | Producer(holder: nat)

  datatype Phase =
    | Refused
    // a producer, from admission to its return
    | Queued
    | Permitted
    | Running
    | Ended(outcome: Outcome)
    | Timed(outcome: Outcome)
    | Counted(outcome: Outcome)
    | Stored(outcome: Outcome)
    | Notified(outcome: Outcome)
    | Removed(outcome: Outcome)
    // a waiter, around its loop
    | Fresh
    | Armed(seen: nat)
    | Parked(seen: nat)
    // either
    | Returned(outcome: Outcome)
    | Dropped(at: Phase)

  datatype Task = Task(key: Key, role: Role, phase: Phase)

  /** `owners[h]` is the call that created holder `h`; `recorded` is every duration ever recorded. */
  datatype State = State(
    cfg: Config,
    sh: Shared,
    tasks: seq<Task>,
    owners: seq<nat>,
    recorded: seq<nat>)

  datatype Action =
    | Call(key: Key)
    | Acquire(i: nat)
    | Start(i: nat)
    | Finish(i: nat, work: WorkResult)
    | Record(i: nat, ms: nat)
    | Tally(i: nat)
    | Publish(i: nat)
    | Wake(i: nat)
    | Release(i: nat)
    | Return(i: nat)
    | Arm(i: nat)
    | Check(i: nat)
    | Resume(i: nat)
    | Drop(i: nat)

  function Init(cfg: Config): State {
    State(cfg, Initial(cfg), [], [], [])
  }

  /** The points where a caller can drop the future: those that await. */
  predicate Awaiting(t: Task) {
    t.phase.Queued? || t.phase.Running? || t.phase.Counted? || t.phase.Armed? || t.phase.Parked?
  }

  predicate HolderExists(s: State, i: nat)
    requires i < |s.tasks|
  {
    !s.tasks[i].role.Turned? && s.tasks[i].role.holder < |s.sh.holders|
  }

  predicate Enabled(s: State, a: Action) {
    match a
    case Call(key) => true
    case Acquire(i) => i < |s.tasks| && s.tasks[i].phase.Queued? && s.sh.permits > 0
    case Start(i) => i < |s.tasks| && s.tasks[i].phase.Permitted?
    case Finish(i, work) => i < |s.tasks| && s.tasks[i].phase.Running?
    case Record(i, ms) => i < |s.tasks| && s.tasks[i].phase.Ended?
    case Tally(i) => i < |s.tasks| && s.tasks[i].phase.Timed?
    case Publish(i) => i < |s.tasks| && s.tasks[i].phase.Counted? && HolderExists(s, i)
    case Wake(i) => i < |s.tasks| && s.tasks[i].phase.Stored? && HolderExists(s, i)
    case Release(i) => i < |s.tasks| && s.tasks[i].phase.Notified?
    case Return(i) => i < |s.tasks| && s.tasks[i].phase.Removed?
    case Arm(i) => i < |s.tasks| && s.tasks[i].phase.Fresh? && HolderExists(s, i)
    case Check(i) => i < |s.tasks| && s.tasks[i].phase.Armed? && HolderExists(s, i)
    case Resume(i) =>
      i < |s.tasks| && s.tasks[i].phase.Parked? && HolderExists(s, i)
      && s.sh.holders[s.tasks[i].role.holder].notifies > s.tasks[i].phase.seen
    case Drop(i) => i < |s.tasks| && Awaiting(s.tasks[i])
  }

  function Move(s: State, i: nat, phase: Phase, sh: Shared): State
    requires i < |s.tasks|
  {
    s.(sh := sh, tasks := s.tasks[i := s.tasks[i].(phase := phase)])
  }

  function AfterCall(s: State, key: Key): State {
    var (sh, admission) := Admit(s.cfg, s.sh, key);
    match admission
    case Refuse(_) => s.(sh := sh, tasks := s.tasks + [Task(key, Turned, Refused)])
    case Join(h) => s.(sh := sh, tasks := s.tasks + [Task(key, Waiter(h), Fresh)])
    case Produce(h) =>
      s.(sh := sh, tasks := s.tasks + [Task(key, Producer(h), Queued)], owners := s.owners + [|s.tasks|])
  }

  function Next(s: State, a: Action): State
    requires Enabled(s, a)
  {
    match a
    case Call(key) => AfterCall(s, key)
    case Acquire(i) => Move(s, i, Permitted, TakePermit(s.sh))
    case Start(i) => Move(s, i, Running, Begin(s.sh))
    case Finish(i, work) => Move(s, i, Ended(Describe(s.cfg, work)), End(s.sh))
    case Record(i, ms) =>
      Move(s, i, Timed(s.tasks[i].phase.outcome), RecordDuration(s.sh, ms)).(recorded := s.recorded + [ms])
    case Tally(i) =>
      var o := s.tasks[i].phase.outcome;
      Move(s, i, Counted(o), CountOutcome(s.sh, o))
    case Publish(i) =>
      var o := s.tasks[i].phase.outcome;
      Move(s, i, Stored(o), Store(s.sh, s.tasks[i].role.holder, o))
    case Wake(i) =>
      Move(s, i, Notified(s.tasks[i].phase.outcome), NotifyWaiters(s.sh, s.tasks[i].role.holder))
    case Release(i) =>
      Move(s, i, Removed(s.tasks[i].phase.outcome), Remove(s.sh, s.tasks[i].key))
    case Return(i) =>
      Move(s, i, Returned(s.tasks[i].phase.outcome), ReturnPermit(s.sh))
    case Arm(i) =>
      Move(s, i, Armed(s.sh.holders[s.tasks[i].role.holder].notifies), s.sh)
    case Check(i) =>
      var holder := s.sh.holders[s.tasks[i].role.holder];
      if holder.result.Some? then Move(s, i, Returned(holder.result.value), s.sh)
      else Move(s, i, Parked(s.tasks[i].phase.seen), s.sh)
    case Resume(i) => Move(s, i, Fresh, s.sh)
    case Drop(i) =>
      Move(s, i, Dropped(s.tasks[i].phase), if HoldsPermit(s.tasks[i]) then ReturnPermit(s.sh) else s.sh)
  }

  ghost predicate ValidRun(s: State, acts: seq<Action>)
    decreases |acts|
  {
    acts == [] || (Enabled(s, acts[0]) && ValidRun(Next(s, acts[0]), acts[1..]))
  }

  ghost function Exec(s: State, acts: seq<Action>): State
    requires ValidRun(s, acts)
    decreases |acts|
  {
    if acts == [] then s else Exec(Next(s, acts[0]), acts[1..])
  }

  // ----- what the counters count -----

  /** The producer has published nothing yet, or has not yet removed its key. */
  predicate Live(t: Task) {
    t.role.Producer? && !t.phase.Removed? && !t.phase.Returned?
  }

  predicate HoldsPermit(t: Task) {
    t.role.Producer?
    && (t.phase.Permitted? || t.phase.Running? || t.phase.Ended? || t.phase.Timed? || t.phase.Counted?
        || t.phase.Stored? || t.phase.Notified? || t.phase.Removed?)
  }

  predicate IsRunning(t: Task) {
    t.phase.Running?
  }

  /** Dropped while its work was running: the matching decrement of `active` never executes. */
  predicate DroppedRunning(t: Task) {
    t.phase.Dropped? && t.phase.at.Running?
  }

  predicate CountsAsActive(t: Task) {
    IsRunning(t) || DroppedRunning(t)
  }

  predicate PastTally(t: Task) {
    t.role.Producer?
    && (t.phase.Counted? || t.phase.Stored? || t.phase.Notified? || t.phase.Removed? || t.phase.Returned?
        || (t.phase.Dropped? && t.phase.at.Counted?))
  }

  function Verdict(t: Task): Outcome
    requires PastTally(t)
  {
    if t.phase.Dropped? then t.phase.at.outcome else t.phase.outcome
  }

  predicate CountedSuccess(t: Task) {
    PastTally(t) && Verdict(t).Success?
  }

  predicate CountedFailure(t: Task) {
    PastTally(t) && Verdict(t).Failure?
  }

  predicate PastRecord(t: Task) {
    PastTally(t) || (t.role.Producer? && t.phase.Timed?)
  }

  predicate IsRefused(t: Task) { t.role.Turned? }

  predicate IsWaiter(t: Task) { t.role.Waiter? }

  predicate IsProducer(t: Task) { t.role.Producer? }

  // ----- the invariant -----

  ghost predicate Shape(s: State) {
    && s.cfg.Valid()
    && |s.owners| == |s.sh.holders|
    && (forall h :: 0 <= h < |s.owners| ==> s.owners[h] < |s.tasks| && s.tasks[s.owners[h]].role == Producer(h))
  }

  predicate Published(phase: Phase) {
    phase.Stored? || phase.Notified? || phase.Removed? || phase.Returned?
  }

  predicate ProducerPhase(phase: Phase) {
    phase.Queued? || phase.Permitted? || phase.Running? || phase.Ended? || phase.Timed? || phase.Counted?
    || Published(phase)
    || (phase.Dropped? && (phase.at.Queued? || phase.at.Running? || phase.at.Counted?))
  }

  ghost predicate ProducerOk(s: State, i: nat)
    requires i < |s.tasks| && s.tasks[i].role.Producer?
  {
    var t := s.tasks[i];
    var h := t.role.holder;
    && h < |s.sh.holders|
    && h < |s.owners|
    && s.owners[h] == i
    && ProducerPhase(t.phase)
    && (Live(t) ==> t.key in s.sh.inFlight && s.sh.inFlight[t.key] == h)
    && s.sh.holders[h].result == (if Published(t.phase) then Some(t.phase.outcome) else None)
    && s.sh.holders[h].notifies == (if Published(t.phase) && !t.phase.Stored? then 1 else 0)
  }

  ghost predicate WaiterOk(s: State, i: nat)
    requires i < |s.tasks| && s.tasks[i].role.Waiter?
  {
    var t := s.tasks[i];
    var h := t.role.holder;
    && h < |s.sh.holders|
    && h < |s.owners|
    && s.owners[h] < |s.tasks|
    && s.tasks[s.owners[h]].key == t.key
    && match t.phase
       case Fresh => true
       case Armed(seen) => seen <= s.sh.holders[h].notifies
       case Parked(seen) => seen == 0
       case Returned(o) => s.sh.holders[h].result == Some(o)
       case Dropped(at) => at.Armed? || at.Parked?
       case _ => false
  }

  ghost predicate TaskOk(s: State, i: nat)
    requires i < |s.tasks|
  {
    match s.tasks[i].role
    case Turned => s.tasks[i].phase.Refused?
    case Producer(_) => ProducerOk(s, i)
    case Waiter(_) => WaiterOk(s, i)
  }

  ghost predicate EntryOk(s: State, k: Key)
    requires Shape(s) && k in s.sh.inFlight
  {
    var h := s.sh.inFlight[k];
    h < |s.owners| && s.tasks[s.owners[h]].key == k && Live(s.tasks[s.owners[h]])
  }

  ghost predicate MapOk(s: State)
    requires Shape(s)
  {
    && |s.sh.inFlight| <= s.cfg.Capacity()
    && forall k :: k in s.sh.inFlight ==> EntryOk(s, k)
  }

  ghost predicate CountersOk(s: State) {
    && s.sh.permits + Count(s.tasks, HoldsPermit) == s.cfg.concurrency
    && s.sh.active == Count(s.tasks, CountsAsActive)
    && s.sh.completed == Count(s.tasks, CountedSuccess)
    && s.sh.failed == Count(s.tasks, CountedFailure)
    && s.sh.deduplicated == Count(s.tasks, IsWaiter)
    && |s.sh.holders| == Count(s.tasks, IsProducer)
    && |s.recorded| == Count(s.tasks, PastRecord)
  }

  ghost predicate WindowOk(s: State) {
    s.sh.durations == LastN(s.recorded, SAMPLE_WINDOW)
  }

  ghost predicate LiveOk(s: State) {
    |s.sh.inFlight| == Count(s.tasks, Live)
  }

  ghost predicate TasksOk(s: State)
    requires Shape(s)
  {
    forall i :: 0 <= i < |s.tasks| ==> TaskOk(s, i)
  }

  ghost predicate Inv(s: State) {
    && Shape(s)
    && TasksOk(s)
    && MapOk(s)
    && CountersOk(s)
    && WindowOk(s)
    && LiveOk(s)
  }

  // ----- the invariant holds in every run -----

  ghost predicate Shifted(tasks: seq<Task>, i: nat, t: Task, p: Task -> bool)
    requires i < |tasks|
  {
    Count(tasks[i := t], p) == Count(tasks, p) - (if p(tasks[i]) then 1 else 0) + (if p(t) then 1 else 0)
  }

  lemma CountsAfterMove(tasks: seq<Task>, i: nat, t: Task)
    requires i < |tasks|
    ensures Shifted(tasks, i, t, HoldsPermit) && Shifted(tasks, i, t, CountsAsActive)
    ensures Shifted(tasks, i, t, CountedSuccess) && Shifted(tasks, i, t, CountedFailure)
    ensures Shifted(tasks, i, t, IsWaiter) && Shifted(tasks, i, t, IsProducer)
    ensures Shifted(tasks, i, t, PastRecord)
  {
    CountUpdate(tasks, i, t, HoldsPermit);
    CountUpdate(tasks, i, t, CountsAsActive);
    CountUpdate(tasks, i, t, CountedSuccess);
    CountUpdate(tasks, i, t, CountedFailure);
    CountUpdate(tasks, i, t, IsWaiter);
    CountUpdate(tasks, i, t, IsProducer);
    CountUpdate(tasks, i, t, PastRecord);
  }

  lemma CountsAfterCall(tasks: seq<Task>, t: Task)
    ensures Count(tasks + [t], HoldsPermit) == Count(tasks, HoldsPermit) + (if HoldsPermit(t) then 1 else 0)
    ensures Count(tasks + [t], CountsAsActive) == Count(tasks, CountsAsActive) + (if CountsAsActive(t) then 1 else 0)
    ensures Count(tasks + [t], CountedSuccess) == Count(tasks, CountedSuccess) + (if CountedSuccess(t) then 1 else 0)
    ensures Count(tasks + [t], CountedFailure) == Count(tasks, CountedFailure) + (if CountedFailure(t) then 1 else 0)
    ensures Count(tasks + [t], IsWaiter) == Count(tasks, IsWaiter) + (if IsWaiter(t) then 1 else 0)
    ensures Count(tasks + [t], IsProducer) == Count(tasks, IsProducer) + (if IsProducer(t) then 1 else 0)
    ensures Count(tasks + [t], PastRecord) == Count(tasks, PastRecord) + (if PastRecord(t) then 1 else 0)
  {
    CountAppend(tasks, t, HoldsPermit);
    CountAppend(tasks, t, CountsAsActive);
    CountAppend(tasks, t, CountedSuccess);
    CountAppend(tasks, t, CountedFailure);
    CountAppend(tasks, t, IsWaiter);
    CountAppend(tasks, t, IsProducer);
    CountAppend(tasks, t, PastRecord);
  }

  /** What a step of call `i` may change, as seen by the other calls. */
  ghost predicate StepOf(s: State, s': State, i: nat)
    requires Shape(s) && i < |s.tasks|
  {
    && s'.cfg == s.cfg
    && s'.owners == s.owners
    && |s'.tasks| == |s.tasks|
    && s'.tasks == s.tasks[i := s'.tasks[i]]
    && s'.tasks[i].key == s.tasks[i].key
    && s'.tasks[i].role == s.tasks[i].role
    && |s'.sh.holders| == |s.sh.holders|
    && (forall h :: 0 <= h < |s.sh.holders| ==> HolderStep(s, s', i, h))
  }

  ghost predicate HolderStep(s: State, s': State, i: nat, h: nat)
    requires Shape(s) && i < |s.tasks| && h < |s.sh.holders| == |s'.sh.holders|
  {
    if s.tasks[i].role == Producer(h) then
      && s'.sh.holders[h].notifies >= s.sh.holders[h].notifies
      && (s.sh.holders[h].result.Some? ==> s'.sh.holders[h].result == s.sh.holders[h].result)
    else
      s'.sh.holders[h] == s.sh.holders[h]
  }

  lemma BystanderOk(s: State, s': State, i: nat, j: nat)
    requires Shape(s) && i < |s.tasks| && StepOf(s, s', i)
    requires j < |s.tasks| && j != i && TaskOk(s, j)
    requires s'.sh.inFlight == s.sh.inFlight
             || (s'.sh.inFlight == s.sh.inFlight - {s.tasks[i].key}
                 && (Live(s.tasks[j]) ==> s.tasks[j].key != s.tasks[i].key))
    requires s.tasks[i].role.Producer? ==> ProducerOk(s, i)
    ensures TaskOk(s', j)
  {
    assert s'.tasks[j] == s.tasks[j];
    match s.tasks[j].role
    case Turned =>
    case Producer(h) => assert HolderStep(s, s', i, h);
    case Waiter(h) => assert HolderStep(s, s', i, h);
  }

  lemma MoveKeepsTasks(s: State, s': State, i: nat)
    requires Shape(s) && TasksOk(s) && i < |s.tasks| && StepOf(s, s', i)
    requires s'.sh.inFlight == s.sh.inFlight
             || (s'.sh.inFlight == s.sh.inFlight - {s.tasks[i].key} && Live(s.tasks[i]))
    requires TaskOk(s', i)
    ensures Shape(s') && TasksOk(s')
  {
    forall j | 0 <= j < |s'.tasks| ensures TaskOk(s', j) {
      if j != i {
        assert TaskOk(s, i) && TaskOk(s, j);
        BystanderOk(s, s', i, j);
      }
    }
  }

  lemma EntryKept(s: State, s': State, i: nat, k: Key)
    requires Shape(s) && i < |s.tasks| && StepOf(s, s', i) && Shape(s')
    requires k in s.sh.inFlight && EntryOk(s, k)
    requires k in s'.sh.inFlight && s'.sh.inFlight[k] == s.sh.inFlight[k]
    requires s.tasks[i].key == k && Live(s.tasks[i]) ==> Live(s'.tasks[i])
    ensures EntryOk(s', k)
  {
  }

  lemma MoveKeepsMap(s: State, s': State, i: nat)
    requires Shape(s) && MapOk(s) && i < |s.tasks| && StepOf(s, s', i) && Shape(s')
    requires (s'.sh.inFlight == s.sh.inFlight && (Live(s.tasks[i]) ==> Live(s'.tasks[i])))
             || s'.sh.inFlight == s.sh.inFlight - {s.tasks[i].key}
    ensures MapOk(s')
  {
    assert s'.sh.inFlight.Keys <= s.sh.inFlight.Keys;
    CardinalityMonotone(s'.sh.inFlight.Keys, s.sh.inFlight.Keys);
    forall k | k in s'.sh.inFlight ensures EntryOk(s', k) {
      EntryKept(s, s', i, k);
    }
  }

  lemma {:induction false} CardinalityMonotone<T>(a: set<T>, b: set<T>)
    requires a <= b
    ensures |a| <= |b|
  {
    assert b == a + (b - a);
  }

  lemma CountersAfterMove(s: State, i: nat, phase: Phase, sh: Shared)
    requires CountersOk(s) && i < |s.tasks|
    requires var t := s.tasks[i].(phase := phase);
      && sh.permits + (if HoldsPermit(t) then 1 else 0) == s.sh.permits + (if HoldsPermit(s.tasks[i]) then 1 else 0)
      && sh.active - (if CountsAsActive(t) then 1 else 0) == s.sh.active - (if CountsAsActive(s.tasks[i]) then 1 else 0)
      && sh.completed - (if CountedSuccess(t) then 1 else 0)
      == s.sh.completed - (if CountedSuccess(s.tasks[i]) then 1 else 0)
      && sh.failed - (if CountedFailure(t) then 1 else 0) == s.sh.failed - (if CountedFailure(s.tasks[i]) then 1 else 0)
      && sh.deduplicated == s.sh.deduplicated && |sh.holders| == |s.sh.holders|
      && PastRecord(t) == PastRecord(s.tasks[i])
    ensures CountersOk(Move(s, i, phase, sh))
  {
    CountsAfterMove(s.tasks, i, s.tasks[i].(phase := phase));
  }

  /** What earlier calls and entries see of a new call: tasks, owners, holders and entries only grow. */
  ghost predicate Grown(s: State, s': State) {
    && |s'.tasks| == |s.tasks| + 1
    && s.tasks <= s'.tasks
    && s.owners <= s'.owners
    && s.sh.holders <= s'.sh.holders
    && forall k :: k in s.sh.inFlight ==> k in s'.sh.inFlight && s'.sh.inFlight[k] == s.sh.inFlight[k]
  }

  lemma CallGrows(s: State, key: Key)
    ensures Grown(s, AfterCall(s, key))
  {
  }

  lemma EarlierTaskOk(s: State, s': State, i: nat)
    requires Shape(s) && Grown(s, s') && i < |s.tasks| && TaskOk(s, i)
    ensures TaskOk(s', i)
  {
    assert s'.tasks[i] == s.tasks[i];
    match s.tasks[i].role
    case Turned =>
    case Producer(h) => assert s'.sh.holders[h] == s.sh.holders[h] && s'.owners[h] == s.owners[h];
    case Waiter(h) =>
      assert s'.sh.holders[h] == s.sh.holders[h] && s'.owners[h] == s.owners[h];
      assert s'.tasks[s.owners[h]] == s.tasks[s.owners[h]];
  }

  lemma EarlierEntryOk(s: State, s': State, k: Key)
    requires Shape(s) && Shape(s') && Grown(s, s') && k in s.sh.inFlight && EntryOk(s, k)
    ensures EntryOk(s', k)
  {
    var h := s.sh.inFlight[k];
    assert s'.owners[h] == s.owners[h] && s'.tasks[s.owners[h]] == s.tasks[s.owners[h]];
  }

  lemma CallKeepsShape(s: State, key: Key)
    requires Shape(s)
    ensures Shape(AfterCall(s, key))
  {
    var s' := AfterCall(s, key);
    forall h | 0 <= h < |s'.owners|
      ensures s'.owners[h] < |s'.tasks| && s'.tasks[s'.owners[h]].role == Producer(h)
    {
      if h < |s.owners| {
        assert s.owners[h] < |s.tasks| && s.tasks[s.owners[h]].role == Producer(h);
      }
    }
  }

  lemma NewTaskOk(s: State, key: Key)
    requires Shape(s) && (key in s.sh.inFlight ==> EntryOk(s, key))
    ensures TaskOk(AfterCall(s, key), |s.tasks|)
  {
  }

  lemma GrownKeepsTasks(s: State, s': State)
    requires Shape(s) && TasksOk(s) && Shape(s') && Grown(s, s') && TaskOk(s', |s.tasks|)
    ensures TasksOk(s')
  {
    forall i | 0 <= i < |s.tasks| ensures TaskOk(s', i) {
      assert TaskOk(s, i);
      EarlierTaskOk(s, s', i);
    }
  }

  lemma GrownKeepsMap(s: State, s': State)
    requires Shape(s) && MapOk(s) && Shape(s') && Grown(s, s') && |s'.sh.inFlight| <= s'.cfg.Capacity()
    requires forall k :: k in s'.sh.inFlight && k !in s.sh.inFlight ==> EntryOk(s', k)
    ensures MapOk(s')
  {
    forall k | k in s'.sh.inFlight ensures EntryOk(s', k) {
      if k in s.sh.inFlight {
        EarlierEntryOk(s, s', k);
      }
    }
  }

  /** A new call keeps the map within capacity, and enters no key but its own. */
  lemma CallKeepsBound(s: State, key: Key)
    requires Shape(s) && MapOk(s) && Shape(AfterCall(s, key))
    ensures var s' := AfterCall(s, key);
            && |s'.sh.inFlight| <= s'.cfg.Capacity()
            && forall k :: k in s'.sh.inFlight && k !in s.sh.inFlight ==> EntryOk(s', k)
  {
    if key !in s.sh.inFlight && |s.sh.inFlight| < s.cfg.Capacity() {
      MapGrows(s.sh.inFlight, key, |s.sh.holders|);
    }
  }

  lemma CallKeepsStructure(s: State, key: Key)
    requires Shape(s) && TasksOk(s) && MapOk(s)
    ensures var s' := AfterCall(s, key); Shape(s') && TasksOk(s') && MapOk(s')
  {
    CallGrows(s, key);
    CallKeepsShape(s, key);
    NewTaskOk(s, key);
    GrownKeepsTasks(s, AfterCall(s, key));
    CallKeepsBound(s, key);
    GrownKeepsMap(s, AfterCall(s, key));
  }

  lemma CountersAfterCall(s: State, s': State, t: Task)
    requires CountersOk(s) && s'.cfg == s.cfg && s'.tasks == s.tasks + [t] && s'.recorded == s.recorded
    requires t.phase.Refused? || t.phase.Fresh? || t.phase.Queued?
    requires s'.sh.permits == s.sh.permits && s'.sh.active == s.sh.active
    requires s'.sh.completed == s.sh.completed && s'.sh.failed == s.sh.failed
    requires s'.sh.deduplicated == s.sh.deduplicated + (if t.role.Waiter? then 1 else 0)
    requires |s'.sh.holders| == |s.sh.holders| + (if t.role.Producer? then 1 else 0)
    ensures CountersOk(s')
  {
    CountsAfterCall(s.tasks, t);
  }

  lemma CallKeepsCounters(s: State, key: Key)
    requires CountersOk(s)
    ensures CountersOk(AfterCall(s, key))
  {
    CountersAfterCall(s, AfterCall(s, key), AfterCall(s, key).tasks[|s.tasks|]);
  }

  lemma WindowAfterPush(recorded: seq<nat>, ms: nat)
    ensures PushSample(LastN(recorded, SAMPLE_WINDOW), ms) == LastN(recorded + [ms], SAMPLE_WINDOW)
  {
  }

  lemma RecordKeepsCounters(s: State, i: nat, ms: nat)
    requires CountersOk(s) && Enabled(s, Record(i, ms)) && s.tasks[i].role.Producer?
    ensures CountersOk(Next(s, Record(i, ms)))
  {
    var s' := Next(s, Record(i, ms));
    CountsAfterMove(s.tasks, i, s'.tasks[i]);
  }

  lemma StepKeepsWindow(s: State, a: Action)
    requires WindowOk(s) && Enabled(s, a)
    ensures WindowOk(Next(s, a))
  {
    if a.Record? {
      WindowAfterPush(s.recorded, a.ms);
    }
  }

  lemma ProducerMoveKeepsCounters(s: State, a: Action)
    requires CountersOk(s) && Enabled(s, a) && !a.Call? && !a.Record? && !a.Drop?
    requires s.tasks[a.i].role.Producer? && ProducerPhase(s.tasks[a.i].phase)
    ensures CountersOk(Next(s, a))
  {
    var s' := Next(s, a);
    CountersAfterMove(s, a.i, s'.tasks[a.i].phase, s'.sh);
  }

  lemma OtherMoveKeepsCounters(s: State, a: Action)
    requires CountersOk(s) && Enabled(s, a) && !a.Call?
    requires a.Drop? || (s.tasks[a.i].role.Waiter? && (a.Arm? || a.Check? || a.Resume?))
    ensures CountersOk(Next(s, a))
  {
    var s' := Next(s, a);
    CountersAfterMove(s, a.i, s'.tasks[a.i].phase, s'.sh);
  }

  /** The moving call's own part of the invariant, and what the others can see of its step. */
  lemma OwnStep(s: State, a: Action)
    requires Shape(s) && Enabled(s, a) && !a.Call? && TaskOk(s, a.i)
    ensures StepOf(s, Next(s, a), a.i)
  {
    var s' := Next(s, a);
    forall h | 0 <= h < |s.sh.holders| ensures HolderStep(s, s', a.i, h) {
    }
  }

  lemma ProducerStepOk(s: State, a: Action)
    requires Shape(s) && Enabled(s, a) && !a.Call? && !a.Drop? && s.tasks[a.i].role.Producer? && ProducerOk(s, a.i)
    ensures TaskOk(Next(s, a), a.i)
  {
  }

  lemma WaiterStepOk(s: State, a: Action)
    requires Shape(s) && Enabled(s, a) && !a.Call? && !a.Drop? && s.tasks[a.i].role.Waiter? && WaiterOk(s, a.i)
    requires ProducerOk(s, s.owners[s.tasks[a.i].role.holder])
    ensures TaskOk(Next(s, a), a.i)
  {
  }

  lemma DropStepOk(s: State, i: nat)
    requires Shape(s) && Enabled(s, Drop(i)) && TaskOk(s, i)
    ensures TaskOk(Next(s, Drop(i)), i)
  {
  }

  lemma OwnTaskOk(s: State, a: Action)
    requires Shape(s) && TasksOk(s) && Enabled(s, a) && !a.Call?
    ensures TaskOk(Next(s, a), a.i)
  {
    var t := s.tasks[a.i];
    assert TaskOk(s, a.i);
    if a.Drop? {
      DropStepOk(s, a.i);
    } else if t.role.Producer? {
      ProducerStepOk(s, a);
    } else {
      assert TaskOk(s, s.owners[t.role.holder]);
      WaiterStepOk(s, a);
    }
  }

  lemma MapOrLivenessKept(s: State, a: Action)
    requires Shape(s) && Enabled(s, a) && !a.Call? && TaskOk(s, a.i)
    ensures var s' := Next(s, a);
            if a.Release? then s'.sh.inFlight == s.sh.inFlight - {s.tasks[a.i].key} && Live(s.tasks[a.i])
            else s'.sh.inFlight == s.sh.inFlight && (Live(s.tasks[a.i]) ==> Live(s'.tasks[a.i]))
  {
  }

  lemma CallKeepsLive(s: State, key: Key)
    requires LiveOk(s)
    ensures LiveOk(AfterCall(s, key))
  {
    var s' := AfterCall(s, key);
    CountAppend(s.tasks, s'.tasks[|s.tasks|], Live);
    if key !in s.sh.inFlight && |s.sh.inFlight| < s.cfg.Capacity() {
      MapGrows(s.sh.inFlight, key, |s.sh.holders|);
    }
  }

  lemma MoveKeepsLive(s: State, a: Action)
    requires Shape(s) && LiveOk(s) && Enabled(s, a) && !a.Call? && TaskOk(s, a.i)
    ensures LiveOk(Next(s, a))
  {
    var s' := Next(s, a);
    MapOrLivenessKept(s, a);
    CountUpdate(s.tasks, a.i, s'.tasks[a.i], Live);
    if a.Release? {
      MapShrinks(s.sh.inFlight, s.tasks[a.i].key);
    } else {
      assert Live(s'.tasks[a.i]) == Live(s.tasks[a.i]);
    }
  }

  lemma MoveKeepsCounters(s: State, a: Action)
    requires Shape(s) && TasksOk(s) && CountersOk(s) && Enabled(s, a) && !a.Call?
    ensures CountersOk(Next(s, a))
  {
    assert TaskOk(s, a.i);
    if a.Record? {
      RecordKeepsCounters(s, a.i, a.ms);
    } else if a.Drop? || s.tasks[a.i].role.Waiter? {
      OtherMoveKeepsCounters(s, a);
    } else {
      ProducerMoveKeepsCounters(s, a);
    }
  }

  lemma StepKeepsInv(s: State, a: Action)
    requires Inv(s) && Enabled(s, a)
    ensures Inv(Next(s, a))
  {
    StepKeepsWindow(s, a);
    if a.Call? {
      CallKeepsStructure(s, a.key);
      CallKeepsCounters(s, a.key);
      CallKeepsLive(s, a.key);
    } else {
      MoveKeepsCounters(s, a);
      assert TaskOk(s, a.i);
      OwnStep(s, a);
      OwnTaskOk(s, a);
      MapOrLivenessKept(s, a);
      MoveKeepsLive(s, a);
      MoveKeepsTasks(s, Next(s, a), a.i);
      MoveKeepsMap(s, Next(s, a), a.i);
    }
  }

  lemma {:induction false} RunKeepsInv(s: State, acts: seq<Action>)
    requires Inv(s) && ValidRun(s, acts)
    ensures Inv(Exec(s, acts))
    decreases |acts|
  {
    if acts != [] {
      StepKeepsInv(s, acts[0]);
      RunKeepsInv(Next(s, acts[0]), acts[1..]);
    }
  }
}
