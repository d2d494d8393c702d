/**
 The Node render service: byte-budget cache, event-loop queue, lookups shared by key, and two render
 attempts with a browser restart in between.

 A step is one stretch of JavaScript without an await.  The lookup queue is left open: it may be
 full, and a lookup may end at any time with any record or an error.  A timed-out job has ended for
 the queue, but its work runs on until its attempt ends, and may still fill the cache.

 A clock drives the timers: a job's timer never fires early, and an attempt has ended when its own
 timer is late by `Lateness`.  Measured durations and the times of cache entries come from other clocks
 and may be anything.
*/
module LegacyService {
  import opened Basics
  import C = RenderCache
  import Q = EventQueue
  import QR = EventQueueRuns

  datatype Record = Record(body: Bytes)

  /** The error is the one the attempt failed with. */
  datatype Phase = Unstarted | Trying | Recycling(error: string) | Won(png: Bytes) | Lost(error: string)

  /**
   The work of one queue job; `tries` counts the attempts begun.  It starts, with its queue timer, at
   `startedAt`; its latest attempt began, with the attempt's timer, at `begunAt`.
  */
  datatype Work = Work(record: Record, phase: Phase, tries: nat, aborted: bool, startedAt: nat, begunAt: nat)

  datatype LookupPhase =
    | Loading
    | Drawing(job: nat)
    | Leaving(outcome: Q.Outcome)
    | Ended(outcome: Q.Outcome)

  datatype Lookup = Lookup(key: string, phase: LookupPhase)

  /** What a call gets: a cached image, a job's promise, a lookup's promise, or the busy error. */
  datatype Answer = Hit(png: Bytes) | OnJob(job: nat) | OnLookup(lookup: nat) | Busy

  datatype Call = Call(key: string, answer: Answer)

  datatype State = State(
    lim: C.Limits,
    cache: C.Cache,
    q: QR.State,
    works: seq<Work>,
    lookups: seq<Lookup>,
    inFlight: map<string, nat>,
    deduplicated: nat,
    renderRetries: nat,
    browserRecoveries: nat,
    calls: seq<Call>,
    rendered: set<(string, Record, Bytes)>,
    clock: nat)

  datatype Action =
    | Direct(key: string, record: Record, now: int)
    | ById(key: string, now: int, full: bool)
    | LookupOk(p: nat, record: Record)
    | LookupErr(p: nat, error: string)
    | Deliver(p: nat)
    | Leave(p: nat)
    | Begin(j: nat)
    | Draw(j: nat, png: Bytes, now: int)
    | Break(j: nat, error: string)
    | Recover(j: nat)
    | Finish(j: nat, ms: nat)
    | Timeout(j: nat, error: string, ms: nat)
    | Finalize(j: nat)
    | Tick(ms: nat)

  function Init(lim: C.Limits, cfg: Q.Config): State {
    State(lim, C.EMPTY, QR.Init(cfg), [], [], map[], 0, 0, 0, [], {}, 0)
  }

  /** The timer of one attempt, by that of the queue. */
  function AttemptMs(timeoutMs: nat): nat {
    Max(1, Min(6000, timeoutMs * 2 / 5))
  }

  /** How late the event loop may fire an attempt's timer: by less than the queue's timer is longer. */
  function Lateness(timeoutMs: nat): nat {
    if AttemptMs(timeoutMs) < timeoutMs then timeoutMs - AttemptMs(timeoutMs) - 1 else 0
  }

  /** At this time no attempt is under way that its timer must have ended before. */
  predicate OnTime(s: State, time: nat) {
    forall j :: 0 <= j < |s.works| && s.works[j].phase.Trying? ==>
      time <= s.works[j].begunAt + AttemptMs(s.q.cfg.timeoutMs) + Lateness(s.q.cfg.timeoutMs)
  }

  predicate Started(s: State, j: nat) {
    j < |s.works| && j < |s.q.jobs| && !QR.IsWaiting(s.q, j)
  }

  /** The raced work has settled, so its job ends with its result before any timer runs. */
  predicate Over(w: Work) {
    w.phase.Won? || w.phase.Lost?
  }

  function Result(w: Work): Q.Outcome
    requires Over(w)
  {
    if w.phase.Won? then Q.Resolved(w.phase.png) else Q.Rejected(w.phase.error)
  }

  predicate Enabled(s: State, a: Action) {
    match a
    case Direct(_, _, _) => true
    case ById(_, _, _) => true
    case LookupOk(p, _) => p < |s.lookups| && s.lookups[p].phase.Loading?
    case LookupErr(p, _) => p < |s.lookups| && s.lookups[p].phase.Loading?
    case Deliver(p) =>
      p < |s.lookups| && s.lookups[p].phase.Drawing? && s.lookups[p].phase.job < |s.q.sh.promises|
      && s.q.sh.promises[s.lookups[p].phase.job].Some?
    case Leave(p) => p < |s.lookups| && s.lookups[p].phase.Leaving?
    case Begin(j) => Started(s, j) && s.works[j].phase.Unstarted?
    case Draw(j, _, _) => Started(s, j) && s.works[j].phase.Trying?
    case Break(j, _) => Started(s, j) && s.works[j].phase.Trying?
    case Recover(j) => Started(s, j) && s.works[j].phase.Recycling?
    case Finish(j, ms) => Started(s, j) && Over(s.works[j]) && QR.Enabled(s.q, QR.Finish(j, Result(s.works[j]), ms))
    case Timeout(j, error, ms) =>
      Started(s, j) && !Over(s.works[j]) && !s.works[j].phase.Unstarted?
      && s.works[j].startedAt + s.q.cfg.timeoutMs <= s.clock
      && QR.Enabled(s.q, QR.Finish(j, Q.Rejected(error), ms))
    case Finalize(j) => QR.Enabled(s.q, QR.Done(j))
    case Tick(ms) => OnTime(s, s.clock + ms)
  }

  /** Handing work for a key to the queue: the job it ends up on, if the queue takes it. */
  function Submit(s: State, key: string, record: Record): (State, Option<nat>) {
    var submitted := s.(q := QR.Next(s.q, QR.Call(key)));
    match Q.Add(s.q.cfg, s.q.sh, key).1
    case Full => (submitted, None)
    case Shares(job) => (submitted, Some(job))
    case Admitted(job) => (submitted.(works := s.works + [Work(record, Unstarted, 0, false, 0, 0)]), Some(job))
  }

  function Answered(s: State, key: string, answer: Answer): State {
    s.(calls := s.calls + [Call(key, answer)])
  }

  function MoveLookup(s: State, p: nat, phase: LookupPhase): State
    requires p < |s.lookups|
  {
    s.(lookups := s.lookups[p := s.lookups[p].(phase := phase)])
  }

  function MoveWork(s: State, j: nat, w: Work): State
    requires j < |s.works|
  {
    s.(works := s.works[j := w])
  }

  function LookUp(s: State, key: string, now: int): (State, Option<Bytes>) {
    var (cache, hit) := C.Get(s.cache, key, now);
    (s.(cache := cache), hit)
  }

  const BUSY := "The image queue is busy. Try again shortly."

  /** After a failed attempt: give up when aborted or on the second failure, else try again. */
  function AfterFailure(w: Work, clock: nat): Work
    requires w.phase.Recycling?
  {
    if w.aborted || w.tries >= 2 then w.(phase := Lost(w.phase.error))
    else w.(phase := Trying, tries := w.tries + 1, begunAt := clock)
  }

  function Next(s: State, a: Action): State
    requires Enabled(s, a)
  {
    match a
    case Direct(key, record, now) =>
      var (looked, hit) := LookUp(s, key, now);
      if hit.Some? then Answered(looked, key, Hit(hit.value))
      else
        var (submitted, job) := Submit(looked, key, record);
        Answered(submitted, key, if job.Some? then OnJob(job.value) else Busy)
    case ById(key, now, full) =>
      var (looked, hit) := LookUp(s, key, now);
      if hit.Some? then Answered(looked, key, Hit(hit.value))
      else if key in s.inFlight then
        Answered(looked.(deduplicated := s.deduplicated + 1), key, OnLookup(s.inFlight[key]))
      else if full then Answered(looked, key, Busy)
      else
        Answered(looked.(lookups := s.lookups + [Lookup(key, Loading)], inFlight := s.inFlight[key := |s.lookups|]),
                 key, OnLookup(|s.lookups|))
    case LookupOk(p, record) =>
      var (submitted, job) := Submit(s, s.lookups[p].key, record);
      MoveLookup(submitted, p, if job.Some? then Drawing(job.value) else Leaving(Q.Rejected(BUSY)))
    case LookupErr(p, error) => MoveLookup(s, p, Leaving(Q.Rejected(error)))
    case Deliver(p) => MoveLookup(s, p, Leaving(s.q.sh.promises[s.lookups[p].phase.job].value))
    case Leave(p) =>
      MoveLookup(s, p, Ended(s.lookups[p].phase.outcome)).(inFlight := s.inFlight - {s.lookups[p].key})
    case Begin(j) => MoveWork(s, j, s.works[j].(phase := Trying, tries := 1, startedAt := s.clock, begunAt := s.clock))
    case Draw(j, png, now) =>
      MoveWork(s, j, s.works[j].(phase := Won(png))).(
        cache := C.Set(s.lim, s.cache, s.q.jobs[j].key, png, now),
        rendered := s.rendered + {(s.q.jobs[j].key, s.works[j].record, png)})
    case Break(j, error) => MoveWork(s, j, s.works[j].(phase := Recycling(error)))
    case Recover(j) =>
      var w := AfterFailure(s.works[j], s.clock);
      MoveWork(s, j, w).(
        browserRecoveries := s.browserRecoveries + 1,
        renderRetries := s.renderRetries + (if w.phase.Trying? then 1 else 0))
    case Finish(j, ms) => s.(q := QR.Next(s.q, QR.Finish(j, Result(s.works[j]), ms)))
    case Timeout(j, error, ms) =>
      MoveWork(s, j, s.works[j].(aborted := true)).(q := QR.Next(s.q, QR.Finish(j, Q.Rejected(error), ms)))
    case Finalize(j) => s.(q := QR.Next(s.q, QR.Done(j)))
    case Tick(ms) => s.(clock := s.clock + ms)
  }

  ghost predicate ValidRun(s: State, acts: seq<Action>)
    decreases |acts|
  {
    acts == [] || (Enabled(s, acts[0]) && ValidRun(Next(s, acts[0]), acts[1..]))
  }

  ghost function Exec(s: State, acts: seq<Action>): State
    requires ValidRun(s, acts)
    decreases |acts|
  {
    if acts == [] then s else Exec(Next(s, acts[0]), acts[1..])
  }

  lemma RunOfOneMore(s: State, a: Action, acts: seq<Action>)
    requires Enabled(s, a) && ValidRun(Next(s, a), acts)
    ensures ValidRun(s, [a] + acts) && Exec(s, [a] + acts) == Exec(Next(s, a), acts)
  {
    assert ([a] + acts)[1..] == acts;
  }

  lemma {:induction false} RunSplitsInTwo(s: State, first: seq<Action>, rest: seq<Action>)
    requires ValidRun(s, first + rest)
    ensures ValidRun(s, first) && ValidRun(Exec(s, first), rest)
    ensures Exec(Exec(s, first), rest) == Exec(s, first + rest)
    decreases |first|
  {
    if first == [] {
      assert first + rest == rest;
    } else {
      var a, more := first[0], first[1..];
      assert first == [a] + more && (first + rest)[1..] == more + rest;
      RunSplitsInTwo(Next(s, a), more, rest);
      RunOfOneMore(s, a, more);
    }
  }

  lemma RunSplits(s: State, acts: seq<Action>, k: nat)
    requires ValidRun(s, acts) && k <= |acts|
    ensures ValidRun(s, acts[..k]) && ValidRun(Exec(s, acts[..k]), acts[k..])
    ensures Exec(Exec(s, acts[..k]), acts[k..]) == Exec(s, acts)
  {
    assert acts == acts[..k] + acts[k..];
    RunSplitsInTwo(s, acts[..k], acts[k..]);
  }

  lemma {:induction false} RunsChain(s: State, acts: seq<Action>, more: seq<Action>)
    requires ValidRun(s, acts) && ValidRun(Exec(s, acts), more)
    ensures ValidRun(s, acts + more) && Exec(s, acts + more) == Exec(Exec(s, acts), more)
    decreases |acts|
  {
    if acts == [] {
      assert acts + more == more;
    } else {
      assert (acts + more)[0] == acts[0] && (acts + more)[1..] == acts[1..] + more;
      RunsChain(Next(s, acts[0]), acts[1..], more);
    }
  }

  lemma OneStep(s: State, a: Action)
    requires Enabled(s, a)
    ensures ValidRun(s, [a]) && Exec(s, [a]) == Next(s, a)
  {
    assert [a][1..] == [];
  }

  /** The state after the first `k` actions of a run. */
  ghost function StateAt(s: State, acts: seq<Action>, k: nat): State
    requires ValidRun(s, acts) && k <= |acts|
  {
    RunSplits(s, acts, k);
    Exec(s, acts[..k])
  }

  lemma StateAtStep(s: State, acts: seq<Action>, k: nat)
    requires ValidRun(s, acts) && k < |acts|
    ensures Enabled(StateAt(s, acts, k), acts[k])
    ensures StateAt(s, acts, k + 1) == Next(StateAt(s, acts, k), acts[k])
  {
    RunSplits(s, acts, k);
    OneStep(StateAt(s, acts, k), acts[k]);
    RunsChain(s, acts[..k], [acts[k]]);
    assert acts[..k + 1] == acts[..k] + [acts[k]];
  }

  lemma StateAtPrefix(s: State, acts: seq<Action>, n: nat, k: nat)
    requires ValidRun(s, acts) && k <= n <= |acts|
    ensures ValidRun(s, acts[..n]) && StateAt(s, acts[..n], k) == StateAt(s, acts, k)
  {
    RunSplits(s, acts, n);
    assert acts[..n][..k] == acts[..k];
  }

  // ----- which images are for which key -----

  /** `png` is on record as drawn under this key. */
  ghost predicate Drawn(rendered: set<(string, Record, Bytes)>, key: string, png: Bytes) {
    exists r: Record :: (key, r, png) in rendered
  }

  ghost predicate AllDrawn(list: seq<C.Entry>, rendered: set<(string, Record, Bytes)>) {
    list == [] || (Drawn(rendered, list[0].key, list[0].value) && AllDrawn(list[1..], rendered))
  }

  lemma {:induction false} WithoutKeepsDrawn(list: seq<C.Entry>, key: string, rendered: set<(string, Record, Bytes)>)
    requires AllDrawn(list, rendered)
    ensures AllDrawn(C.Without(list, key), rendered)
    ensures C.Find(list, key).Some? ==> Drawn(rendered, key, C.Find(list, key).value.value)
  {
    if list != [] {
      WithoutKeepsDrawn(list[1..], key, rendered);
      assert ([list[0]] + C.Without(list[1..], key))[1..] == C.Without(list[1..], key);
    }
  }

  lemma {:induction false} FitKeepsDrawn(list: seq<C.Entry>, budget: int, rendered: set<(string, Record, Bytes)>)
    requires AllDrawn(list, rendered)
    ensures AllDrawn(C.Fit(list, budget), rendered)
  {
    if list != [] && C.Total(list) > budget {
      FitKeepsDrawn(list[1..], budget, rendered);
    }
  }

  lemma {:induction false} AppendKeepsDrawn(list: seq<C.Entry>, e: C.Entry, rendered: set<(string, Record, Bytes)>)
    requires AllDrawn(list, rendered) && Drawn(rendered, e.key, e.value)
    ensures AllDrawn(list + [e], rendered)
  {
    if list != [] {
      assert (list + [e])[1..] == list[1..] + [e];
      AppendKeepsDrawn(list[1..], e, rendered);
    }
  }

  lemma {:induction false} MoreKeepsDrawn(
      list: seq<C.Entry>, rendered: set<(string, Record, Bytes)>, more: set<(string, Record, Bytes)>)
    requires AllDrawn(list, rendered) && rendered <= more
    ensures AllDrawn(list, more)
  {
    if list != [] {
      MoreKeepsDrawn(list[1..], rendered, more);
    }
  }

  lemma GetKeepsDrawn(c: C.Cache, key: string, now: int, rendered: set<(string, Record, Bytes)>)
    requires AllDrawn(c.entries, rendered)
    ensures AllDrawn(C.Get(c, key, now).0.entries, rendered)
    ensures C.Get(c, key, now).1.Some? ==> Drawn(rendered, key, C.Get(c, key, now).1.value)
  {
    WithoutKeepsDrawn(c.entries, key, rendered);
    var found := C.Find(c.entries, key);
    if found.Some? {
      AppendKeepsDrawn(C.Without(c.entries, key), found.value, rendered);
    }
  }

  lemma SetKeepsDrawn(
      lim: C.Limits, c: C.Cache, key: string, png: Bytes, now: int, rendered: set<(string, Record, Bytes)>)
    requires AllDrawn(c.entries, rendered) && Drawn(rendered, key, png)
    ensures AllDrawn(C.Set(lim, c, key, png, now).entries, rendered)
  {
    var others := C.Without(c.entries, key);
    WithoutKeepsDrawn(c.entries, key, rendered);
    FitKeepsDrawn(others, lim.maxBytes - |png|, rendered);
    AppendKeepsDrawn(C.Fit(others, lim.maxBytes - |png|), C.Entry(key, png, now + lim.ttlMs), rendered);
  }

  // ----- the invariant -----

  ghost predicate WorkOk(s: State, j: nat)
    requires j < |s.works| && j < |s.q.jobs|
  {
    var key, w, job := s.q.jobs[j].key, s.works[j], s.q.jobs[j].phase;
    && (w.phase.Won? ==> (key, w.record, w.phase.png) in s.rendered)
    && (!job.Open? && job.outcome.Resolved? ==> (key, w.record, job.outcome.value) in s.rendered)
  }

  ghost predicate WorksOk(s: State) {
    |s.works| == |s.q.jobs| && forall j :: 0 <= j < |s.works| ==> WorkOk(s, j)
  }

  ghost predicate LookupSound(s: State, l: Lookup) {
    match l.phase
    case Loading => true
    case Drawing(job) => job < |s.q.jobs| && s.q.jobs[job].key == l.key
    case Leaving(o) => o.Resolved? ==> Drawn(s.rendered, l.key, o.value)
    case Ended(o) => o.Resolved? ==> Drawn(s.rendered, l.key, o.value)
  }

  ghost predicate LookupsOk(s: State) {
    forall p :: 0 <= p < |s.lookups| ==> LookupSound(s, s.lookups[p])
  }

  ghost predicate CallOk(s: State, c: Call) {
    match c.answer
    case Hit(png) => Drawn(s.rendered, c.key, png)
    case OnJob(j) => j < |s.q.jobs| && s.q.jobs[j].key == c.key
    case OnLookup(p) => p < |s.lookups| && s.lookups[p].key == c.key
    case Busy => true
  }

  ghost predicate CallsOk(s: State) {
    forall c :: 0 <= c < |s.calls| ==> CallOk(s, s.calls[c])
  }

  /** Each key in the map has one lookup that has not ended, and there are no others. */
  ghost predicate SharedOk(s: State) {
    && (forall key :: key in s.inFlight ==>
          s.inFlight[key] < |s.lookups| && s.lookups[s.inFlight[key]].key == key
          && !s.lookups[s.inFlight[key]].phase.Ended?)
    && (forall p :: 0 <= p < |s.lookups| && !s.lookups[p].phase.Ended? ==>
          s.lookups[p].key in s.inFlight && s.inFlight[s.lookups[p].key] == p)
  }

  ghost predicate Inv(s: State) {
    && QR.Inv(s.q) && WorksOk(s) && LookupsOk(s) && CallsOk(s) && SharedOk(s)
    && AllDrawn(s.cache.entries, s.rendered)
  }

  // ----- every step -----

  /** Jobs keep their keys. */
  ghost predicate Extends(s: State, s': State) {
    && s.rendered <= s'.rendered
    && |s.q.jobs| <= |s'.q.jobs|
    && (forall j :: 0 <= j < |s.q.jobs| ==> s'.q.jobs[j].key == s.q.jobs[j].key)
    && |s.lookups| <= |s'.lookups|
    && (forall p :: 0 <= p < |s.lookups| ==> s'.lookups[p].key == s.lookups[p].key)
  }

  lemma QueueKeepsKeys(q: QR.State, a: QR.Action)
    requires QR.Enabled(q, a)
    ensures |q.jobs| <= |QR.Next(q, a).jobs|
    ensures forall j :: 0 <= j < |q.jobs| ==> QR.Next(q, a).jobs[j].key == q.jobs[j].key
  {
  }

  lemma StepExtends(s: State, a: Action)
    requires Enabled(s, a)
    ensures Extends(s, Next(s, a))
  {
    if a.Direct? {
      QueueKeepsKeys(s.q, QR.Call(a.key));
    } else if a.LookupOk? {
      QueueKeepsKeys(s.q, QR.Call(s.lookups[a.p].key));
    } else if a.Finish? {
      QueueKeepsKeys(s.q, QR.Finish(a.j, Result(s.works[a.j]), a.ms));
    } else if a.Timeout? {
      QueueKeepsKeys(s.q, QR.Finish(a.j, Q.Rejected(a.error), a.ms));
    } else if a.Finalize? {
      QueueKeepsKeys(s.q, QR.Done(a.j));
    }
  }

  lemma ExtendingKeepsDrawn(s: State, s': State)
    requires Extends(s, s')
    ensures forall key, png :: Drawn(s.rendered, key, png) ==> Drawn(s'.rendered, key, png)
  {
  }

  lemma ExtendingKeepsLookup(s: State, s': State, l: Lookup)
    requires Extends(s, s') && LookupSound(s, l)
    ensures LookupSound(s', l)
  {
    ExtendingKeepsDrawn(s, s');
  }

  lemma ExtendingKeepsCall(s: State, s': State, c: Call)
    requires Extends(s, s') && CallOk(s, c)
    ensures CallOk(s', c)
  {
    ExtendingKeepsDrawn(s, s');
  }

  /** The job a call of the queue lands on is a job of the same key. */
  lemma CallLandsOnKey(q: QR.State, key: string)
    requires QR.Inv(q)
    ensures QR.Inv(QR.Next(q, QR.Call(key)))
    ensures var jobs := QR.Next(q, QR.Call(key)).jobs;
            match Q.Add(q.cfg, q.sh, key).1
            case Full => jobs == q.jobs
            case Shares(job) => jobs == q.jobs && job < |q.jobs| && q.jobs[job].key == key
            case Admitted(job) => job == |q.jobs| && jobs == q.jobs + [QR.Job(key, QR.Open)]
  {
    QR.StepKeepsInv(q, QR.Call(key));
  }

  lemma SubmitKeepsWorks(s: State, key: string, record: Record)
    requires QR.Inv(s.q) && WorksOk(s)
    ensures var (s', job) := Submit(s, key, record);
            && QR.Inv(s'.q) && WorksOk(s') && s'.rendered == s.rendered
            && (job.Some? ==> job.value < |s'.q.jobs| && s'.q.jobs[job.value].key == key)
  {
    var s' := Submit(s, key, record).0;
    CallLandsOnKey(s.q, key);
    forall j | 0 <= j < |s'.works| ensures WorkOk(s', j) {
      if j < |s.works| {
        assert WorkOk(s, j);
      }
    }
  }

  lemma SameWorks(s: State, s': State)
    requires WorksOk(s) && s'.q == s.q && s'.works == s.works && s.rendered <= s'.rendered
    ensures WorksOk(s')
  {
    forall j | 0 <= j < |s'.works| ensures WorkOk(s', j) {
      assert WorkOk(s, j);
    }
  }

  lemma CallMoveKeepsWorks(s: State, a: Action)
    requires QR.Inv(s.q) && WorksOk(s) && Enabled(s, a)
    requires a.Direct? || a.ById? || a.LookupOk? || a.LookupErr? || a.Deliver? || a.Leave?
    ensures QR.Inv(Next(s, a).q) && WorksOk(Next(s, a))
  {
    var s' := Next(s, a);
    if a.Direct? {
      var (looked, hit) := LookUp(s, a.key, a.now);
      SameWorks(s, looked);
      SubmitKeepsWorks(looked, a.key, a.record);
      SameWorks(if hit.Some? then looked else Submit(looked, a.key, a.record).0, s');
    } else if a.LookupOk? {
      SubmitKeepsWorks(s, s.lookups[a.p].key, a.record);
      SameWorks(Submit(s, s.lookups[a.p].key, a.record).0, s');
    } else {
      SameWorks(s, s');
    }
  }

  /** The step of the queue a service step makes by ending or finalizing a job. */
  function QueueStep(s: State, a: Action): QR.Action
    requires Enabled(s, a) && (a.Finish? || a.Timeout? || a.Finalize?)
  {
    if a.Finish? then QR.Finish(a.j, Result(s.works[a.j]), a.ms)
    else if a.Timeout? then QR.Finish(a.j, Q.Rejected(a.error), a.ms)
    else QR.Done(a.j)
  }

  lemma QueueMoveKeepsWork(s: State, a: Action, j: nat)
    requires WorksOk(s) && Enabled(s, a) && (a.Finish? || a.Timeout? || a.Finalize?)
    requires j < |s.works| && |Next(s, a).q.jobs| == |s.q.jobs|
    ensures WorkOk(Next(s, a), j)
  {
    assert WorkOk(s, j);
  }

  lemma QueueMoveKeepsWorks(s: State, a: Action)
    requires QR.Inv(s.q) && WorksOk(s) && Enabled(s, a) && (a.Finish? || a.Timeout? || a.Finalize?)
    ensures QR.Inv(Next(s, a).q) && WorksOk(Next(s, a))
  {
    var s' := Next(s, a);
    QR.StepKeepsInv(s.q, QueueStep(s, a));
    forall j | 0 <= j < |s'.works| ensures WorkOk(s', j) {
      QueueMoveKeepsWork(s, a, j);
    }
  }

  lemma WorkMoveKeepsWorks(s: State, a: Action)
    requires QR.Inv(s.q) && WorksOk(s) && Enabled(s, a) && (a.Begin? || a.Draw? || a.Break? || a.Recover?)
    ensures QR.Inv(Next(s, a).q) && WorksOk(Next(s, a))
  {
    var s' := Next(s, a);
    forall j | 0 <= j < |s'.works| ensures WorkOk(s', j) {
      assert WorkOk(s, j);
    }
  }

  lemma StepKeepsWorks(s: State, a: Action)
    requires QR.Inv(s.q) && WorksOk(s) && Enabled(s, a)
    ensures QR.Inv(Next(s, a).q) && WorksOk(Next(s, a))
  {
    if a.Finish? || a.Timeout? || a.Finalize? {
      QueueMoveKeepsWorks(s, a);
    } else if a.Begin? || a.Draw? || a.Break? || a.Recover? {
      WorkMoveKeepsWorks(s, a);
    } else if a.Tick? {
      SameWorks(s, Next(s, a));
    } else {
      CallMoveKeepsWorks(s, a);
    }
  }

  lemma StepKeepsCache(s: State, a: Action)
    requires Enabled(s, a) && AllDrawn(s.cache.entries, s.rendered)
    ensures AllDrawn(Next(s, a).cache.entries, Next(s, a).rendered)
  {
    if a.Direct? {
      GetKeepsDrawn(s.cache, a.key, a.now, s.rendered);
    } else if a.ById? {
      GetKeepsDrawn(s.cache, a.key, a.now, s.rendered);
    } else if a.Draw? {
      var rendered := Next(s, a).rendered;
      MoreKeepsDrawn(s.cache.entries, s.rendered, rendered);
      assert (s.q.jobs[a.j].key, s.works[a.j].record, a.png) in rendered;
      SetKeepsDrawn(s.lim, s.cache, s.q.jobs[a.j].key, a.png, a.now, rendered);
    }
  }

  lemma CallsGrow(s: State, s': State)
    requires Extends(s, s') && CallsOk(s)
    requires s'.calls == s.calls
          || (|s'.calls| == |s.calls| + 1 && s'.calls[..|s.calls|] == s.calls && CallOk(s', s'.calls[|s.calls|]))
    ensures CallsOk(s')
  {
    forall c | 0 <= c < |s'.calls| ensures CallOk(s', s'.calls[c]) {
      if c < |s.calls| {
        assert s'.calls[c] == s.calls[c];
        ExtendingKeepsCall(s, s', s.calls[c]);
      }
    }
  }

  lemma DirectAnswerIsOk(s: State, a: Action)
    requires Inv(s) && a.Direct?
    ensures CallOk(Next(s, a), Next(s, a).calls[|s.calls|]) && Next(s, a).calls[..|s.calls|] == s.calls
  {
    GetKeepsDrawn(s.cache, a.key, a.now, s.rendered);
    var looked := LookUp(s, a.key, a.now).0;
    SameWorks(s, looked);
    SubmitKeepsWorks(looked, a.key, a.record);
  }

  lemma ByIdAnswerIsOk(s: State, a: Action)
    requires Inv(s) && a.ById?
    ensures CallOk(Next(s, a), Next(s, a).calls[|s.calls|]) && Next(s, a).calls[..|s.calls|] == s.calls
  {
    GetKeepsDrawn(s.cache, a.key, a.now, s.rendered);
  }

  lemma StepFramesCalls(s: State, a: Action)
    requires Enabled(s, a)
    ensures if a.Direct? || a.ById? then |Next(s, a).calls| == |s.calls| + 1 else Next(s, a).calls == s.calls
  {
  }

  lemma StepKeepsCalls(s: State, a: Action)
    requires Inv(s) && Enabled(s, a)
    ensures CallsOk(Next(s, a))
  {
    StepExtends(s, a);
    StepFramesCalls(s, a);
    if a.Direct? {
      DirectAnswerIsOk(s, a);
    } else if a.ById? {
      ByIdAnswerIsOk(s, a);
    }
    CallsGrow(s, Next(s, a));
  }

  lemma LookupsKept(s: State, s': State, p: nat)
    requires Extends(s, s') && LookupsOk(s)
    requires forall k :: 0 <= k < |s.lookups| && k != p ==> s'.lookups[k] == s.lookups[k]
    requires forall k :: 0 <= k < |s'.lookups| && (k == p || k >= |s.lookups|) ==> LookupSound(s', s'.lookups[k])
    ensures LookupsOk(s')
  {
    forall k | 0 <= k < |s'.lookups| ensures LookupSound(s', s'.lookups[k]) {
      if k < |s.lookups| && k != p {
        ExtendingKeepsLookup(s, s', s.lookups[k]);
      }
    }
  }

  /** A resolved promise of a job carries an image drawn for the job's key. */
  lemma ResolvedJobIsDrawn(s: State, j: nat)
    requires QR.Inv(s.q) && WorksOk(s) && j < |s.q.jobs| && s.q.sh.promises[j].Some?
    ensures s.q.sh.promises[j].value.Resolved? ==>
              Drawn(s.rendered, s.q.jobs[j].key, s.q.sh.promises[j].value.value)
  {
    assert WorkOk(s, j);
  }

  predicate MovesLookup(a: Action) {
    a.LookupOk? || a.LookupErr? || a.Deliver? || a.Leave?
  }

  lemma DrawingLookupIsOk(s: State, a: Action)
    requires Inv(s) && Enabled(s, a) && a.LookupOk?
    ensures LookupSound(Next(s, a), Next(s, a).lookups[a.p])
  {
    SubmitKeepsWorks(s, s.lookups[a.p].key, a.record);
  }

  lemma MovedLookupIsOk(s: State, a: Action)
    requires Inv(s) && Enabled(s, a) && MovesLookup(a)
    ensures LookupSound(Next(s, a), Next(s, a).lookups[a.p])
  {
    if a.LookupOk? {
      DrawingLookupIsOk(s, a);
    } else {
      assert LookupSound(s, s.lookups[a.p]);
      if a.Deliver? {
        ResolvedJobIsDrawn(s, s.lookups[a.p].phase.job);
      }
    }
  }

  /** The lookups a step leaves alone, and the one it may add. */
  lemma StepFramesLookups(s: State, a: Action)
    requires Enabled(s, a)
    ensures var ls, ls' := s.lookups, Next(s, a).lookups;
            && |ls'| == |ls| + (if a.ById? && |ls'| > |ls| then 1 else 0)
            && (MovesLookup(a) ==> ls' == ls[a.p := ls'[a.p]] && ls'[a.p].key == ls[a.p].key)
            && (!MovesLookup(a) && !a.ById? ==> ls' == ls)
            && (a.ById? ==> ls' == ls || ls' == ls + [Lookup(a.key, Loading)])
  {
  }

  lemma StepKeepsLookups(s: State, a: Action)
    requires Inv(s) && Enabled(s, a)
    ensures LookupsOk(Next(s, a))
  {
    StepExtends(s, a);
    StepFramesLookups(s, a);
    if MovesLookup(a) {
      MovedLookupIsOk(s, a);
      LookupsKept(s, Next(s, a), a.p);
    } else {
      LookupsKept(s, Next(s, a), |s.lookups|);
    }
  }

  lemma ByIdKeepsShared(s: State, a: Action)
    requires SharedOk(s) && a.ById?
    ensures SharedOk(Next(s, a))
  {
  }

  lemma LookupMoveKeepsShared(s: State, a: Action)
    requires SharedOk(s) && Enabled(s, a) && MovesLookup(a)
    ensures SharedOk(Next(s, a))
  {
    StepFramesLookups(s, a);
    var s' := Next(s, a);
    assert a.Leave? <==> s'.lookups[a.p].phase.Ended?;
    assert s'.inFlight == if a.Leave? then s.inFlight - {s.lookups[a.p].key} else s.inFlight;
  }

  lemma OtherMovesKeepShared(s: State, a: Action)
    requires SharedOk(s) && Enabled(s, a) && !MovesLookup(a) && !a.ById?
    ensures SharedOk(Next(s, a))
  {
    assert Next(s, a).inFlight == s.inFlight && Next(s, a).lookups == s.lookups;
  }

  lemma StepKeepsShared(s: State, a: Action)
    requires SharedOk(s) && Enabled(s, a)
    ensures SharedOk(Next(s, a))
  {
    if MovesLookup(a) {
      LookupMoveKeepsShared(s, a);
    } else if a.ById? {
      ByIdKeepsShared(s, a);
    } else {
      OtherMovesKeepShared(s, a);
    }
  }

  lemma StepKeepsInv(s: State, a: Action)
    requires Inv(s) && Enabled(s, a)
    ensures Inv(Next(s, a))
  {
    StepKeepsWorks(s, a);
    StepKeepsCache(s, a);
    StepKeepsCalls(s, a);
    StepKeepsLookups(s, a);
    StepKeepsShared(s, a);
  }

  lemma {:induction false} RunKeepsInv(s: State, acts: seq<Action>)
    requires Inv(s) && ValidRun(s, acts)
    ensures Inv(Exec(s, acts))
    decreases |acts|
  {
    if acts != [] {
      StepKeepsInv(s, acts[0]);
      RunKeepsInv(Next(s, acts[0]), acts[1..]);
    }
  }

  ghost predicate Reachable(s: State) {
    exists lim: C.Limits, cfg: Q.Config, acts: seq<Action> ::
      ValidRun(Init(lim, cfg), acts) && s == Exec(Init(lim, cfg), acts)
  }

  lemma ReachableInv(s: State)
    requires Reachable(s)
    ensures Inv(s)
  {
    var lim: C.Limits, cfg: Q.Config, acts: seq<Action> :|
      ValidRun(Init(lim, cfg), acts) && s == Exec(Init(lim, cfg), acts);
    RunKeepsInv(Init(lim, cfg), acts);
  }

  // ----- the service's own fields -----

  /** How one render attempt ends. */
  datatype Rendered = Fine(png: Bytes) | Broken(error: string)

  class RenderService {
    var inFlightMatches: map<string, nat>
    var deduplicated: nat
    var renderRetries: nat
    var browserRecoveries: nat

    /** The object holds what the machine's state says it holds. */
    ghost predicate Holds(s: State)
      reads this
    {
      && inFlightMatches == s.inFlight
      && deduplicated == s.deduplicated
      && renderRetries == s.renderRetries
      && browserRecoveries == s.browserRecoveries
    }

    constructor (ghost lim: C.Limits, ghost cfg: Q.Config)
      ensures Holds(Init(lim, cfg))
    {
      inFlightMatches, deduplicated, renderRetries, browserRecoveries := map[], 0, 0, 0;
    }

    /** `matchById` after a cache miss; `next` names the promise of a new lookup. */
    method JoinOrLookUp(key: string, full: bool, next: nat, ghost s: State, ghost now: int) returns (answer: Answer)
      requires Holds(s) && next == |s.lookups| && C.Get(s.cache, key, now).1.None?
      modifies this
      ensures Holds(Next(s, ById(key, now, full)))
      ensures Next(s, ById(key, now, full)).calls == s.calls + [Call(key, answer)]
    {
      if key in inFlightMatches {
        deduplicated := deduplicated + 1;
        return OnLookup(inFlightMatches[key]);
      }
      if full {
        return Busy;
      }
      inFlightMatches := inFlightMatches[key := next];
      answer := OnLookup(next);
    }

    /** The `finally` of a lookup. */
    method ForgetMatch(key: string, ghost s: State, ghost p: nat)
      requires Holds(s) && Enabled(s, Leave(p)) && s.lookups[p].key == key
      modifies this`inFlightMatches
      ensures Holds(Next(s, Leave(p)))
    {
      inFlightMatches := inFlightMatches - {key};
    }

    /** The `catch` of the retry loop, after the browser restart; `tries` attempts have been begun. */
    method AfterFailedAttempt(tries: nat, aborted: bool, ghost s: State, ghost j: nat) returns (again: bool)
      requires Holds(s) && Enabled(s, Recover(j)) && s.works[j].tries == tries && s.works[j].aborted == aborted
      modifies this
      ensures Holds(Next(s, Recover(j)))
      ensures again <==> Next(s, Recover(j)).works[j].phase.Trying?
    {
      browserRecoveries := browserRecoveries + 1;
      if aborted || tries >= 2 {
        return false;
      }
      renderRetries := renderRetries + 1;
      again := true;
    }

    /**
     The whole retry loop of a job nothing else interferes with, `aborted` telling whether the job had
     timed out when an attempt failed: the first image wins, an abort ends the loop, and so does the
     second failure.
    */
    method RenderWithRecovery(render: nat -> Rendered, aborted: nat -> bool) returns (r: Rendered)
      modifies this`renderRetries, this`browserRecoveries
      ensures r == if render(0).Fine? || aborted(0) then render(0) else render(1)
      ensures renderRetries == old(renderRetries) + (if render(0).Fine? || aborted(0) then 0 else 1)
      ensures browserRecoveries == old(browserRecoveries)
                + (if render(0).Fine? then 0 else if aborted(0) || render(1).Fine? then 1 else 2)
    {
      for attempt := 0 to 2
        invariant attempt <= 1
        invariant attempt == 0 ==> renderRetries == old(renderRetries) && browserRecoveries == old(browserRecoveries)
        invariant attempt == 1 ==> render(0).Broken? && !aborted(0)
        invariant attempt == 1 ==> renderRetries == old(renderRetries) + 1
        invariant attempt == 1 ==> browserRecoveries == old(browserRecoveries) + 1
      {
        r := render(attempt);
        if r.Fine? {
          return;
        }
        browserRecoveries := browserRecoveries + 1;
        if aborted(attempt) || attempt == 1 {
          return;
        }
        renderRetries := renderRetries + 1;
      }
      assert false;
    }
  }
}
