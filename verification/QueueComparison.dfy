/** The admission rules of the two work queues, side by side. */
module QueueComparison {
  import R = RenderQueue
  import RR = RenderQueueRuns
  import RT = RenderQueueTheorems
  import N = EventQueue
  import NR = EventQueueRuns

  /** Every job passes through the waiting list, so a Node queue that lets nothing wait never holds one. */
  ghost predicate HoldsNothing(s: NR.State) {
    s.jobs == [] && s.sh.waiting == [] && s.sh.inFlight == map[]
  }

  lemma {:induction false} ConfigStays(s: NR.State, acts: seq<NR.Action>)
    requires NR.ValidRun(s, acts)
    ensures NR.Exec(s, acts).cfg == s.cfg
    decreases |acts|
  {
    if acts != [] {
      ConfigStays(NR.Next(s, acts[0]), acts[1..]);
    }
  }

  lemma {:induction false} NothingEverHeld(s: NR.State, acts: seq<NR.Action>)
    requires HoldsNothing(s) && NR.ValidRun(s, acts)
    ensures NR.Exec(s, acts).cfg.maxQueued == 0 ==> HoldsNothing(NR.Exec(s, acts))
    decreases |acts|
  {
    ConfigStays(s, acts);
    if acts != [] && s.cfg.maxQueued == 0 {
      NothingEverHeld(NR.Next(s, acts[0]), acts[1..]);
    }
  }

  /** With `maxQueued` 0 the Node queue refuses every call in every state it can reach. */
  lemma RefusesEveryCall(s: NR.State, key: string)
    requires NR.Reachable(s) && s.cfg.maxQueued == 0
    ensures s.sh.inFlight == map[] && N.Add(s.cfg, s.sh, key) == (s.sh, N.Full)
  {
    var cfg: N.Config, acts: seq<NR.Action> :| NR.ValidRun(NR.Init(cfg), acts) && s == NR.Exec(NR.Init(cfg), acts);
    NothingEverHeld(NR.Init(cfg), acts);
  }

  /**
   The Node queue's rule in the Rust queue's terms: it refuses a new key exactly when keys in flight
   fill slots and waiting list together, unless it has slots and nothing may wait.
  */
  lemma NodeRefusesAtCapacity(s: NR.State, key: string)
    requires NR.Reachable(s) && key !in s.sh.inFlight
    ensures (N.Add(s.cfg, s.sh, key).1.Full? <==> |s.sh.inFlight| >= s.cfg.concurrency + s.cfg.maxQueued)
       <==> s.cfg.maxQueued > 0 || s.cfg.concurrency == 0
  {
    NR.BoundedAndWorkConserving(s);
    if s.cfg.maxQueued == 0 {
      RefusesEveryCall(s, key);
    }
  }

  /** Both share, both refuse, or both take the work. */
  predicate Alike(rust: R.Admission, node: N.Answer) {
    && (rust.Join? <==> node.Shares?)
    && (rust.Refuse? <==> node.Full?)
  }

  /** What the Rust queue answers to a call, by the role it gives the caller. */
  predicate RoleOf(role: RR.Role, answer: R.Admission) {
    && (role.Waiter? <==> answer.Join?)
    && (role.Turned? <==> answer.Refuse?)
  }

  lemma RolesAreAnswers(rust: RR.State, key: string)
    requires RT.Reachable(rust)
    ensures RoleOf(RR.AfterCall(rust, key).tasks[|rust.tasks|].role, R.Admit(rust.cfg, rust.sh, key).1)
    ensures rust.cfg.concurrency >= 1
  {
    RT.ReachableInv(rust);
    RT.AdmissionIsExact(rust, key);
  }

  /**
   Two queues of one size with the same keys in flight admit the same calls exactly when something may
   wait; otherwise the Node queue refuses every call, and the Rust queue admits the key.
  */
  lemma QueuesAdmitAlike(rust: RR.State, node: NR.State, key: string)
    requires RT.Reachable(rust) && NR.Reachable(node)
    requires rust.cfg.concurrency == node.cfg.concurrency && rust.cfg.maxQueued == node.cfg.maxQueued
    requires rust.sh.inFlight.Keys == node.sh.inFlight.Keys
    ensures var r, n := R.Admit(rust.cfg, rust.sh, key).1, N.Add(node.cfg, node.sh, key).1;
            && RoleOf(RR.AfterCall(rust, key).tasks[|rust.tasks|].role, r)
            && (Alike(r, n) <==> node.cfg.maxQueued > 0)
            && (!Alike(r, n) ==> n.Full? && r.Produce?)
  {
    RolesAreAnswers(rust, key);
    assert |rust.sh.inFlight| == |rust.sh.inFlight.Keys| == |node.sh.inFlight|;
    if key !in node.sh.inFlight {
      NodeRefusesAtCapacity(node, key);
    }
    if node.cfg.maxQueued == 0 {
      RefusesEveryCall(node, key);
      assert key !in rust.sh.inFlight.Keys;
    }
  }

  /** The difference at its plainest: with no room to wait, an empty Node queue refuses its first call. */
  lemma EmptyQueuesDiffer(concurrency: nat, timeoutMs: nat, workLabel: string, key: string)
    requires concurrency >= 1
    ensures var rust := R.Config(concurrency, 0, timeoutMs, workLabel);
            R.Admit(rust, R.Initial(rust), key).1.Produce?
    ensures N.Add(N.Config(concurrency, 0, timeoutMs, workLabel), N.EMPTY, key) == (N.EMPTY, N.Full)
    ensures NR.Reachable(NR.Init(N.Config(concurrency, 0, timeoutMs, workLabel)))
  {
    var cfg := N.Config(concurrency, 0, timeoutMs, workLabel);
    assert NR.ValidRun(NR.Init(cfg), []) && NR.Exec(NR.Init(cfg), []) == NR.Init(cfg);
  }
}
