/**
 The deduplicating, bounded work queue of the Rust renderer, one method for each region of `add`
 and `wait_for_result` that runs without yielding.  `Shared` is the state those regions read and
 write; the class stores it in fields and every method is tied to a function on `Shared`, so that
 the state machine in RenderQueueRuns reasons about exactly what the class does.
*/
module RenderQueue {
  import opened Basics
  import opened Decimals

  type Key = string

  datatype Config = Config(concurrency: nat, maxQueued: nat, timeoutMs: nat, workLabel: string)
  {
    ghost predicate Valid() {
      concurrency >= 1
    }

    function Capacity(): nat {
      concurrency + maxQueued
    }
  }

  /** How the producer's own future ends: the timeout wrapper adds the third case. */
  datatype WorkResult = Done(value: Bytes) | Errored(error: string) | TimedOut

  /** What is published to every caller of the same key. */
  datatype Outcome = Success(value: Bytes) | Failure(message: string)

  /** The result slot shared by the callers of one key, with the number of `notify_waiters` calls. */
  datatype Holder = Holder(result: Option<Outcome>, notifies: nat)

  datatype Shared = Shared(
    permits: nat,
    active: int,
    inFlight: map<Key, nat>,
    holders: seq<Holder>,
    completed: nat,
    failed: nat,
    deduplicated: nat,
    durations: seq<nat>)

  datatype Admission = Refuse(message: string) | Join(holder: nat) | Produce(holder: nat)

  function Describe(cfg: Config, r: WorkResult): Outcome {
    match r
    case Done(value) => Success(value)
    case Errored(error) => Failure(cfg.workLabel + " failed: " + error)
    case TimedOut => Failure(cfg.workLabel + " exceeded " + Digits(cfg.timeoutMs) + "ms")
  }

  function Initial(cfg: Config): Shared {
    Shared(cfg.concurrency, 0, map[], [], 0, 0, 0, [])
  }

  function Admit(cfg: Config, sh: Shared, key: Key): (Shared, Admission) {
    if key in sh.inFlight then
      (sh.(deduplicated := sh.deduplicated + 1), Join(sh.inFlight[key]))
    else if |sh.inFlight| >= cfg.Capacity() then
      (sh, Refuse("The " + cfg.workLabel + " queue is busy. Try again shortly."))
    else
      (sh.(holders := sh.holders + [Holder(None, 0)], inFlight := sh.inFlight[key := |sh.holders|]),
       Produce(|sh.holders|))
  }

  function TakePermit(sh: Shared): Shared
    requires sh.permits > 0
  {
    sh.(permits := sh.permits - 1)
  }

  function ReturnPermit(sh: Shared): Shared {
    sh.(permits := sh.permits + 1)
  }

  function Begin(sh: Shared): Shared {
    sh.(active := sh.active + 1)
  }

  function End(sh: Shared): Shared {
    sh.(active := sh.active - 1)
  }

  function RecordDuration(sh: Shared, ms: nat): Shared {
    sh.(durations := PushSample(sh.durations, ms))
  }

  function CountOutcome(sh: Shared, o: Outcome): Shared {
    if o.Success? then sh.(completed := sh.completed + 1) else sh.(failed := sh.failed + 1)
  }

  function Store(sh: Shared, h: nat, o: Outcome): Shared
    requires h < |sh.holders|
  {
    sh.(holders := sh.holders[h := sh.holders[h].(result := Some(o))])
  }

  function NotifyWaiters(sh: Shared, h: nat): Shared
    requires h < |sh.holders|
  {
    sh.(holders := sh.holders[h := sh.holders[h].(notifies := sh.holders[h].notifies + 1)])
  }

  function Remove(sh: Shared, key: Key): Shared {
    sh.(inFlight := sh.inFlight - {key})
  }

  class BoundedWorkQueue {
    const cfg: Config
    var permits: nat
    var active: int
    var inFlight: map<Key, nat>
    var holders: seq<Holder>
    var completed: nat
    var failed: nat
    var deduplicated: nat
    var durations: seq<nat>

    ghost function View(): Shared
      reads this
    {
      Shared(permits, active, inFlight, holders, completed, failed, deduplicated, durations)
    }

    constructor (concurrency: nat, maxQueued: nat, timeoutMs: nat, workLabel: string)
      ensures cfg == Config(Max(concurrency, 1), maxQueued, timeoutMs, workLabel) && cfg.Valid()
      ensures View() == Initial(cfg)
    {
      var clamped := Max(concurrency, 1);
      cfg := Config(clamped, maxQueued, timeoutMs, workLabel);
      permits, active, inFlight, holders := clamped, 0, map[], [];
      completed, failed, deduplicated, durations := 0, 0, 0, [];
    }

    /** The region under the map lock at the head of `add`. */
    method AdmitCall(key: Key) returns (a: Admission)
      modifies this
      ensures (View(), a) == Admit(cfg, old(View()), key)
    {
      if key in inFlight {
        deduplicated := deduplicated + 1;
        return Join(inFlight[key]);
      }
      if |inFlight| >= cfg.concurrency + cfg.maxQueued {
        return Refuse("The " + cfg.workLabel + " queue is busy. Try again shortly.");
      }
      var h := |holders|;
      holders := holders + [Holder(None, 0)];
      inFlight := inFlight[key := h];
      a := Produce(h);
    }

    method AcquirePermit()
      requires permits > 0
      modifies this`permits
      ensures View() == TakePermit(old(View()))
    {
      permits := permits - 1;
    }

    method DropPermit()
      modifies this`permits
      ensures View() == ReturnPermit(old(View()))
    {
      permits := permits + 1;
    }

    method BeginWork()
      modifies this`active
      ensures View() == Begin(old(View()))
    {
      active := active + 1;
    }

    method EndWork()
      modifies this`active
      ensures View() == End(old(View()))
    {
      active := active - 1;
    }

    method RecordElapsed(ms: nat)
      modifies this`durations
      ensures View() == RecordDuration(old(View()), ms)
    {
      durations := durations + [ms];
      if |durations| > SAMPLE_WINDOW {
        durations := durations[1..];
      }
    }

    method CountResult(o: Outcome)
      modifies this`completed, this`failed
      ensures View() == CountOutcome(old(View()), o)
    {
      if o.Success? {
        completed := completed + 1;
      } else {
        failed := failed + 1;
      }
    }

    method StoreResult(h: nat, o: Outcome)
      requires h < |holders|
      modifies this`holders
      ensures View() == Store(old(View()), h, o)
    {
      holders := holders[h := holders[h].(result := Some(o))];
    }

    method Notify(h: nat)
      requires h < |holders|
      modifies this`holders
      ensures View() == NotifyWaiters(old(View()), h)
    {
      holders := holders[h := holders[h].(notifies := holders[h].notifies + 1)];
    }

    method Forget(key: Key)
      modifies this`inFlight
      ensures View() == Remove(old(View()), key)
    {
      inFlight := inFlight - {key};
    }
  }
}
