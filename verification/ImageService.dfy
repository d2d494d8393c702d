/**
 The image service's own methods, over its own fields: the cache and the two recovery counters.

 Other calls run between two awaits of a method, so a method here is one region that runs without
 yielding, tied to the step of the service machine it performs.  The exception is the retry loop,
 which is tied to the whole series of steps it makes when nothing else runs in between.
*/
module ImageServices {
  import opened Basics
  import opened RenderService
  import Q = RenderQueue
  import QR = RenderQueueRuns
  import QT = RenderQueueTheorems

  /** How one render attempt ends. */
  datatype Rendered = Drawn(png: Bytes) | Broken(error: string)

  class ImageService {
    const versions: Versions
    var cache: map<string, Bytes>
    var renderRetries: nat
    var browserRecoveries: nat

    /** The object holds what the machine's state says it holds. */
    ghost predicate Holds(s: State)
      reads this
    {
      && versions == s.versions
      && cache == s.cache
      && renderRetries == s.renderRetries
      && browserRecoveries == s.browserRecoveries
    }

    constructor (versions: Versions, ghost cfg: Q.Config)
      ensures Holds(Init(versions, cfg))
    {
      this.versions := versions;
      cache, renderRetries, browserRecoveries := map[], 0, 0;
    }

    /** The cache lookup at the head of `render_match` and `render_loadout`. */
    method LookUp(record: Record, ghost s: State, ghost c: nat) returns (hit: Option<Bytes>)
      requires Holds(s) && Enabled(s, Look(c)) && s.calls[c].record == record
      ensures hit.Some? <==> CacheKey(versions, record) in cache
      ensures hit.Some? ==> hit.value == cache[CacheKey(versions, record)]
      ensures Next(s, Look(c)).calls[c].phase == if hit.Some? then Served(hit.value) else Missed
      ensures Holds(Next(s, Look(c)))
    {
      var key := CacheKey(versions, record);
      hit := if key in cache then Some(cache[key]) else None;
    }

    /** The lookup commands make before fetching a match; an empty image does not count as one. */
    method CachedMatch(matchId: string) returns (hit: Option<Bytes>)
      ensures forall body ::
                var key := CacheKey(versions, Match(Some(matchId), body));
                hit == if key in cache && cache[key] != [] then Some(cache[key]) else None
    {
      var key := CacheKey(versions, Match(Some(matchId), []));
      if key in cache && cache[key] != [] {
        hit := Some(cache[key]);
      } else {
        hit := None;
      }
    }

    /** What `finish_queued_render` does with the queue's answer, and the cache write after it. */
    method FinishQueuedRender(record: Record, outcome: Q.Outcome, ghost s: State, ghost c: nat)
      returns (result: Q.Outcome)
      requires Holds(s) && Enabled(s, Handle(c)) && s.calls[c] == Call(record, Handling(outcome))
      modifies this
      ensures Holds(Next(s, Handle(c)))
      ensures Next(s, Handle(c)).calls[c].phase
           == match result case Success(png) => Served(png) case Failure(message) => Failed(message)
    {
      match outcome
      case Success(value) =>
        cache := cache[CacheKey(versions, record) := value];
        result := Q.Success(value);
      case Failure(message) =>
        if IsWorkTimeout(message) {
          browserRecoveries := browserRecoveries + 1;
        }
        result := Q.Failure(message);
    }

    /**
     The two-attempt loop.  Whatever the attempts yield, it makes exactly the steps of
     `RecoverySteps`, and the job ends with the result it returns.
    */
    method RenderWithRecovery(render: nat -> Rendered, ghost s: State, ghost i: nat) returns (r: Rendered)
      requires Holds(s) && Rendering(s, i) && s.attempts[i] == Attempt(0, false)
      modifies this
      ensures ValidRun(s, RecoverySteps(render, i))
      ensures Holds(Exec(s, RecoverySteps(render, i)))
      ensures r == if render(0).Drawn? then render(0) else render(1)
      ensures EndsWith(Exec(s, RecoverySteps(render, i)), i, r)
    {
      ghost var now := s;
      RecoveryRun(s, render, i);
      for attempt := 0 to 2
        invariant now == AfterFailures(s, i, attempt) && Holds(now)
        invariant attempt > 0 ==> render(0).Broken?
        invariant attempt <= 1
      {
        var result := render(attempt);
        if result.Drawn? {
          return result;
        }
        browserRecoveries := browserRecoveries + 1;
        if attempt == 0 {
          renderRetries := renderRetries + 1;
        } else {
          return result;
        }
        now := AfterFailures(s, i, attempt + 1);
      }
      assert false;
    }
  }

  /** Job `i` has ended with this result of its last attempt. */
  predicate EndsWith(s: State, i: nat, r: Rendered) {
    i < |s.q.tasks|
    && QT.Carried(s.q.tasks[i]) == Some(Q.Describe(s.q.cfg, if r.Drawn? then Q.Done(r.png) else Q.Errored(r.error)))
  }

  /** The steps of one attempt whose failure, if it fails, is dealt with at once. */
  function AttemptSteps(r: Rendered, i: nat): seq<Action> {
    if r.Drawn? then [RenderOk(i, r.png)] else [RenderErr(i), Recover(i, r.error)]
  }

  /** The steps one uninterrupted run of the loop makes. */
  function RecoverySteps(render: nat -> Rendered, i: nat): seq<Action> {
    if render(0).Drawn? then AttemptSteps(render(0), i)
    else AttemptSteps(render(0), i) + AttemptSteps(render(1), i)
  }

  /** The state once the first attempt has failed and the browser has been reset. */
  function AfterFailures(s: State, i: nat, failures: nat): State
    requires Rendering(s, i) && failures <= 1
  {
    if failures == 0 then s
    else
      s.(browserRecoveries := s.browserRecoveries + 1,
         renderRetries := s.renderRetries + 1,
         attempts := s.attempts[i := Attempt(1, false)])
  }

  lemma TwoSteps(s: State, a: Action, b: Action)
    requires Enabled(s, a) && Enabled(Next(s, a), b)
    ensures ValidRun(s, [a, b]) && Exec(s, [a, b]) == Next(Next(s, a), b)
  {
    assert [a, b][1..] == [b];
    OneStep(Next(s, a), b);
  }

  lemma FirstFailure(s: State, i: nat, r: Rendered)
    requires Rendering(s, i) && s.attempts[i] == Attempt(0, false) && r.Broken?
    ensures ValidRun(s, AttemptSteps(r, i)) && Exec(s, AttemptSteps(r, i)) == AfterFailures(s, i, 1)
  {
    var failed := Next(s, RenderErr(i));
    TwoSteps(s, RenderErr(i), Recover(i, r.error));
    assert failed.attempts[i := Attempt(1, false)] == s.attempts[i := Attempt(1, false)];
  }

  /** What the last attempt of a job leaves behind. */
  predicate LastAttemptLeaves(s: State, s': State, i: nat, r: Rendered) {
    && s'.cache == s.cache && s'.versions == s.versions && s'.renderRetries == s.renderRetries
    && s'.browserRecoveries == s.browserRecoveries + (if r.Drawn? then 0 else 1)
    && EndsWith(s', i, r)
  }

  lemma LastAttempt(s: State, i: nat, r: Rendered)
    requires Rendering(s, i) && !s.attempts[i].recycling && (r.Drawn? || s.attempts[i].failures == 1)
    ensures ValidRun(s, AttemptSteps(r, i))
    ensures LastAttemptLeaves(s, Exec(s, AttemptSteps(r, i)), i, r)
  {
    if r.Drawn? {
      OneStep(s, RenderOk(i, r.png));
    } else {
      TwoSteps(s, RenderErr(i), Recover(i, r.error));
    }
  }

  lemma RecoveryRun(s: State, render: nat -> Rendered, i: nat)
    requires Rendering(s, i) && s.attempts[i] == Attempt(0, false)
    ensures ValidRun(s, RecoverySteps(render, i))
    ensures var last := Exec(s, RecoverySteps(render, i));
            if render(0).Drawn? then LastAttemptLeaves(s, last, i, render(0))
            else LastAttemptLeaves(AfterFailures(s, i, 1), last, i, render(1))
  {
    if render(0).Drawn? {
      LastAttempt(s, i, render(0));
    } else {
      FirstFailure(s, i, render(0));
      LastAttempt(AfterFailures(s, i, 1), i, render(1));
      RunsChain(s, AttemptSteps(render(0), i), AttemptSteps(render(1), i));
    }
  }
}
