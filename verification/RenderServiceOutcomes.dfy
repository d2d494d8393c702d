/** How renders end their jobs, and how jobs end the calls that wait for them. */
module RenderServiceOutcomes {
  import opened Basics
  import opened Decimals
  import opened RenderService
  import Q = RenderQueue
  import QR = RenderQueueRuns
  import QT = RenderQueueTheorems

  // ----- renders and jobs -----

  /** The step of the queue a step of the service makes, if any. */
  lemma StepOfQueue(s: State, a: Action) returns (step: Option<QR.Action>)
    requires Enabled(s, a)
    ensures if step.Some? then QR.Enabled(s.q, step.value) && Next(s, a).q == QR.Next(s.q, step.value)
            else Next(s, a).q == s.q
  {
    match a
    case Enter(c) => step := Some(QR.Call(QueueKey(s.versions, s.calls[c].record)));
    case Queue(b) => step := Some(b);
    case RenderOk(i, png) => step := Some(QR.Finish(i, Q.Done(png)));
    case Expire(i) => step := Some(QR.Finish(i, Q.TimedOut));
    case Recover(i, error) =>
      step := if s.attempts[i].failures == 0 then None else Some(QR.Finish(i, Q.Errored(error)));
    case _ => step := None;
  }

  /** The job's outcome is settled as this. */
  predicate EndedAs(s: State, i: nat, o: Q.Outcome) {
    i < |s.q.tasks| && QT.Carried(s.q.tasks[i]) == Some(o)
  }

  lemma StepKeepsOutcome(s: State, a: Action, i: nat, o: Q.Outcome)
    requires Enabled(s, a) && EndedAs(s, i, o)
    ensures EndedAs(Next(s, a), i, o)
  {
    var step := StepOfQueue(s, a);
    if step.Some? {
      QT.StepKeepsCall(s.q, step.value, i);
    }
  }

  lemma {:induction false} RunKeepsOutcome(s: State, acts: seq<Action>, i: nat, o: Q.Outcome)
    requires ValidRun(s, acts) && EndedAs(s, i, o)
    ensures EndedAs(Exec(s, acts), i, o)
    decreases |acts|
  {
    if acts != [] {
      StepKeepsOutcome(s, acts[0], i, o);
      RunKeepsOutcome(Next(s, acts[0]), acts[1..], i, o);
    }
  }

  /** The outcome a job gets from the step that ends its work; a first failure ends nothing. */
  function EndOf(s: State, a: Action): Option<Q.Outcome>
    requires Enabled(s, a)
  {
    match a
    case RenderOk(_, png) => Some(Q.Success(png))
    case Recover(i, error) =>
      if s.attempts[i].failures == 0 then None else Some(Q.Failure(s.q.cfg.workLabel + " failed: " + error))
    case Expire(_) => Some(Q.Failure(s.q.cfg.workLabel + " exceeded " + Digits(s.q.cfg.timeoutMs) + "ms"))
    case _ => None
  }

  /** A job ends as its deciding render does, and keeps that outcome whatever runs afterwards. */
  lemma JobsEndAsTheirRenders(s: State, a: Action, acts: seq<Action>)
    requires Enabled(s, a) && (a.RenderOk? || a.Recover? || a.Expire?) && EndOf(s, a).Some?
    requires ValidRun(Next(s, a), acts)
    ensures EndedAs(Exec(Next(s, a), acts), a.i, EndOf(s, a).value)
  {
    RunKeepsOutcome(Next(s, a), acts, a.i, EndOf(s, a).value);
  }

  // ----- jobs and calls -----

  /** What a call that waits for a task in this phase is told. */
  function Told(cfg: Q.Config, p: QR.Phase): Option<Q.Outcome> {
    if p.Returned? then Some(p.outcome)
    else if p.Refused? then Some(Q.Failure("The " + cfg.workLabel + " queue is busy. Try again shortly."))
    else None
  }

  /** The call waits for the task, is handling what the task ended with, or has ended so itself. */
  predicate Follows(s: State, c: nat, t: nat) {
    && c < |s.calls| && t < |s.q.tasks|
    && match s.calls[c].phase
       case InQueue(task) => task == t
       case Handling(o) => Told(s.q.cfg, s.q.tasks[t].phase) == Some(o)
       case Served(png) => Told(s.q.cfg, s.q.tasks[t].phase) == Some(Q.Success(png))
       case Failed(message) => Told(s.q.cfg, s.q.tasks[t].phase) == Some(Q.Failure(message))
       case _ => false
  }

  lemma QueueKeepsTold(q: QR.State, a: QR.Action, t: nat)
    requires QR.Enabled(q, a) && t < |q.tasks|
    ensures t < |QR.Next(q, a).tasks| && QR.Next(q, a).cfg == q.cfg
    ensures Told(q.cfg, q.tasks[t].phase).Some? ==> QR.Next(q, a).tasks[t].phase == q.tasks[t].phase
  {
    if Told(q.cfg, q.tasks[t].phase).Some? {
      SettledTasksRest(q, a, t);
    }
  }

  /** A call that has returned or was refused makes no step. */
  lemma SettledTasksRest(q: QR.State, a: QR.Action, t: nat)
    requires QR.Enabled(q, a) && t < |q.tasks| && (q.tasks[t].phase.Returned? || q.tasks[t].phase.Refused?)
    ensures t < |QR.Next(q, a).tasks| && QR.Next(q, a).tasks[t] == q.tasks[t]
  {
    assert a.Call? || a.i != t;
  }

  lemma StepKeepsFollowing(s: State, a: Action, c: nat, t: nat)
    requires Enabled(s, a) && Follows(s, c, t)
    ensures Follows(Next(s, a), c, t)
  {
    ToldStays(s, a, t);
    if (a.Collect? || a.Handle?) && a.c == c {
      assert Next(s, a).q == s.q;
    } else {
      OtherStepsKeepCall(s, a, c);
    }
  }

  lemma ToldStays(s: State, a: Action, t: nat)
    requires Enabled(s, a) && t < |s.q.tasks|
    ensures t < |Next(s, a).q.tasks| && Next(s, a).q.cfg == s.q.cfg
    ensures Told(s.q.cfg, s.q.tasks[t].phase).Some? ==> Next(s, a).q.tasks[t].phase == s.q.tasks[t].phase
  {
    var step := StepOfQueue(s, a);
    if step.Some? {
      QueueKeepsTold(s.q, step.value, t);
    }
  }

  lemma OtherStepsKeepCall(s: State, a: Action, c: nat)
    requires Enabled(s, a) && c < |s.calls| && !s.calls[c].phase.Looking? && !s.calls[c].phase.Missed?
    requires !((a.Collect? || a.Handle?) && a.c == c)
    ensures c < |Next(s, a).calls| && Next(s, a).calls[c] == s.calls[c]
  {
  }

  /** A call in the queue ends exactly as its task does: with its image, its error, or the busy error. */
  lemma {:induction false} CallsEndAsTheirTasks(s: State, acts: seq<Action>, c: nat, t: nat)
    requires ValidRun(s, acts) && Follows(s, c, t)
    ensures Follows(Exec(s, acts), c, t)
    decreases |acts|
  {
    if acts != [] {
      StepKeepsFollowing(s, acts[0], c, t);
      CallsEndAsTheirTasks(Next(s, acts[0]), acts[1..], c, t);
    }
  }

  /** A call that misses enters the queue as a task of its own, under its queue key. */
  lemma MissedCallsFollowATask(s: State, c: nat, acts: seq<Action>)
    requires Enabled(s, Enter(c)) && ValidRun(Next(s, Enter(c)), acts)
    ensures Follows(Exec(Next(s, Enter(c)), acts), c, |s.q.tasks|)
  {
    CallsEndAsTheirTasks(Next(s, Enter(c)), acts, c, |s.q.tasks|);
  }
}
