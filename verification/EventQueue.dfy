/**
 The event-loop work queue of the Node renderer.  JavaScript callbacks run one at a time, so a step
 is one whole callback: a call of `add`, the settling of a raced job, or its `finally`, which drains.
 Job ids are handed out in admission order and name the promise every caller of that job shares.
*/
module EventQueue {
  import opened Basics

  type Key = string

  datatype Config = Config(concurrency: nat, maxQueued: nat, timeoutMs: nat, workLabel: string)

  datatype Outcome = Resolved(value: Bytes) | Rejected(message: string)

  datatype Waiting = Waiting(key: Key, job: nat)

  datatype Shared = Shared(
    waiting: seq<Waiting>,
    inFlight: map<Key, nat>,
    active: int,
    completed: nat,
    failed: nat,
    deduplicated: nat,
    durations: seq<nat>,
    promises: seq<Option<Outcome>>)

  datatype Answer = Full | Shares(job: nat) | Admitted(job: nat)

  const EMPTY := Shared([], map[], 0, 0, 0, 0, [], [])

  /** How many waiting jobs a drain starts: as many as there are idle slots. */
  function Startable(cfg: Config, sh: Shared): (n: nat)
    ensures n <= |sh.waiting|
  {
    if sh.active >= cfg.concurrency then 0 else Min(cfg.concurrency - sh.active, |sh.waiting|)
  }

  function Drain(cfg: Config, sh: Shared): Shared {
    var n := Startable(cfg, sh);
    sh.(waiting := sh.waiting[n..], active := sh.active + n)
  }

  function Enqueue(sh: Shared, key: Key): Shared {
    var job := |sh.promises|;
    sh.(waiting := sh.waiting + [Waiting(key, job)],
        inFlight := sh.inFlight[key := job],
        promises := sh.promises + [None])
  }

  function Add(cfg: Config, sh: Shared, key: Key): (Shared, Answer) {
    if key in sh.inFlight then
      (sh.(deduplicated := sh.deduplicated + 1), Shares(sh.inFlight[key]))
    else if |sh.waiting| >= cfg.maxQueued then
      (sh, Full)
    else
      (Drain(cfg, Enqueue(sh, key)), Admitted(|sh.promises|))
  }

  /** The `then` or `catch` callback: measure, count, settle the promise. */
  function Settle(sh: Shared, job: nat, o: Outcome, ms: nat): Shared
    requires job < |sh.promises|
  {
    sh.(durations := PushSample(sh.durations, ms),
        completed := sh.completed + (if o.Resolved? then 1 else 0),
        failed := sh.failed + (if o.Resolved? then 0 else 1),
        promises := sh.promises[job := Some(o)])
  }

  /** The `finally` callback: free the slot, forget the key, drain. */
  function Finalize(cfg: Config, sh: Shared, key: Key): Shared {
    Drain(cfg, sh.(active := sh.active - 1, inFlight := sh.inFlight - {key}))
  }

  class BoundedWorkQueue {
    const cfg: Config
    var waiting: seq<Waiting>
    var inFlight: map<Key, nat>
    var active: int
    var completed: nat
    var failed: nat
    var deduplicated: nat
    var durations: seq<nat>
    var promises: seq<Option<Outcome>>

    ghost function View(): Shared
      reads this
    {
      Shared(waiting, inFlight, active, completed, failed, deduplicated, durations, promises)
    }

    constructor (cfg: Config)
      ensures this.cfg == cfg && View() == EMPTY
    {
      this.cfg := cfg;
      waiting, inFlight, active := [], map[], 0;
      completed, failed, deduplicated, durations, promises := 0, 0, 0, [], [];
    }

    method AddCall(key: Key) returns (a: Answer)
      modifies this
      ensures (View(), a) == Add(cfg, old(View()), key)
    {
      if key in inFlight {
        deduplicated := deduplicated + 1;
        return Shares(inFlight[key]);
      }
      if |waiting| >= cfg.maxQueued {
        return Full;
      }
      var job := |promises|;
      promises := promises + [None];
      inFlight := inFlight[key := job];
      waiting := waiting + [Waiting(key, job)];
      DrainWaiting();
      a := Admitted(job);
    }

    /** Shift jobs off the waiting list one by one while a slot is idle. */
    method DrainWaiting()
      modifies this`waiting, this`active
      ensures View() == Drain(cfg, old(View()))
    {
      ghost var before := waiting;
      ghost var n := Startable(cfg, View());
      ghost var k := 0;
      while active < cfg.concurrency && |waiting| > 0
        invariant 0 <= k <= n && active == old(active) + k
        invariant waiting == before[k..]
        decreases |waiting|
      {
        assert waiting[1..] == before[k + 1..];
        waiting := waiting[1..];
        active := active + 1;
        k := k + 1;
      }
      assert k == n;
    }

    method SettleJob(job: nat, o: Outcome, ms: nat)
      requires job < |promises|
      modifies this
      ensures View() == Settle(old(View()), job, o, ms)
    {
      durations := durations + [ms];
      if |durations| > SAMPLE_WINDOW {
        durations := durations[1..];
      }
      if o.Resolved? {
        completed := completed + 1;
      } else {
        failed := failed + 1;
      }
      promises := promises[job := Some(o)];
    }

    method FinalizeJob(key: Key)
      modifies this
      ensures View() == Finalize(cfg, old(View()), key)
    {
      active := active - 1;
      inFlight := inFlight - {key};
      DrainWaiting();
    }
  }
}
