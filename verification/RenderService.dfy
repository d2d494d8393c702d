/**
 The image service: PNG cache, shared work queue and render retries put together.

 The service runs on top of the queue's state machine.  Its own state adds the cache, the record
 each queued call was made for, the progress of its render attempts, and `rendered`, the history of
 every successful render.  The cache may forget any entry at any time.
*/
module RenderService {
  import opened Basics
  import opened Counting
  import opened Decimals
  import opened Strings
  import Q = RenderQueue
  import QR = RenderQueueRuns
  import QT = RenderQueueTheorems

  const UNKNOWN := "unknown"

  /** The text of an id, a text or a number in the record; anything else counts as missing. */
  function ValueId(id: Option<string>): string {
    if id.Some? then id.value else UNKNOWN
  }

  /** A record to draw; `body` stands for everything besides the identifiers, any of which it may lack. */
  datatype Record =
    | Match(matchId: Option<string>, body: Bytes)
    | Loadout(
        playerId: Option<string>,
        loadoutId: Option<string>,
        updatedAt: Option<string>,
        fetchedAt: Option<string>,
        body: Bytes)
  {
    function MatchText(): string
      requires Match?
    {
      ValueId(matchId)
    }

    function PlayerText(): string
      requires Loadout?
    {
      ValueId(playerId)
    }

    function LoadoutText(): string
      requires Loadout?
    {
      ValueId(loadoutId)
    }

    /** When the loadout was updated or, where that is not known, fetched. */
    function Stamp(): Option<string>
      requires Loadout?
    {
      if updatedAt.Some? then updatedAt else fetchedAt
    }

    function VersionText(): string
      requires Loadout?
    {
      ValueId(Stamp())
    }

    /** The record says what it is of. */
    predicate Identified() {
      if Match? then matchId.Some? else playerId.Some? && loadoutId.Some? && Stamp().Some?
    }
  }

  datatype Versions = Versions(summary: string, loadout: string)

  function CacheKey(v: Versions, r: Record): string {
    if r.Match? then "match:" + r.MatchText() + ":summary:v" + v.summary
    else "loadout:" + r.PlayerText() + ":" + r.LoadoutText() + ":" + r.VersionText() + ":v" + v.loadout
  }

  /** A match is queued under its bare id, a loadout under its cache key. */
  function QueueKey(v: Versions, r: Record): string {
    if r.Match? then r.MatchText() else CacheKey(v, r)
  }

  /** The test `is_work_timeout` applies to the shared error text. */
  predicate IsWorkTimeout(message: string) {
    Contains(message, " exceeded ")
  }

  /** Failed renders accounted for; `recycling` marks the browser reset between a failure and its accounting. */
  datatype Attempt = Attempt(failures: nat, recycling: bool)

  datatype Phase =
    | Looking
    | Missed
    | InQueue(task: nat)
    | Handling(outcome: Q.Outcome)
    | Served(png: Bytes)
    | Failed(message: string)

  datatype Call = Call(record: Record, phase: Phase)

  datatype State = State(
    versions: Versions,
    q: QR.State,
    cache: map<string, Bytes>,
    calls: seq<Call>,
    jobs: seq<Record>,
    attempts: seq<Attempt>,
    renderRetries: nat,
    browserRecoveries: nat,
    rendered: set<(Record, Bytes)>)

  datatype Action =
    | Begin(record: Record)
    | Look(c: nat)
    | Enter(c: nat)
    | Queue(step: QR.Action)
    | RenderOk(i: nat, png: Bytes)
    | RenderErr(i: nat)
    | Recover(i: nat, error: string)
    | Expire(i: nat)
    | Collect(c: nat)
    | Handle(c: nat)
    | Forget(key: string)

  function Init(v: Versions, cfg: Q.Config): State {
    State(v, QR.Init(cfg), map[], [], [], [], 0, 0, {})
  }

  predicate Rendering(s: State, i: nat) {
    i < |s.q.tasks| && i < |s.attempts| && i < |s.jobs| && s.q.tasks[i].phase.Running?
  }

  predicate AtQueueEnd(s: State, c: nat) {
    c < |s.calls| && s.calls[c].phase.InQueue? && s.calls[c].phase.task < |s.q.tasks|
    && var p := s.q.tasks[s.calls[c].phase.task].phase; p.Returned? || p.Refused?
  }

  predicate Enabled(s: State, a: Action) {
    match a
    case Begin(_) => true
    case Look(c) => c < |s.calls| && s.calls[c].phase.Looking?
    case Enter(c) => c < |s.calls| && s.calls[c].phase.Missed?
    case Queue(step) => !step.Call? && !step.Finish? && QR.Enabled(s.q, step)
    case RenderOk(i, _) => Rendering(s, i) && !s.attempts[i].recycling
    case RenderErr(i) => Rendering(s, i) && !s.attempts[i].recycling
    case Recover(i, _) => Rendering(s, i) && s.attempts[i].recycling
    case Expire(i) => Rendering(s, i)
    case Collect(c) => AtQueueEnd(s, c)
    case Handle(c) => c < |s.calls| && s.calls[c].phase.Handling?
    case Forget(_) => true
  }

  function Busy(cfg: Q.Config): string {
    "The " + cfg.workLabel + " queue is busy. Try again shortly."
  }

  function MoveCall(s: State, c: nat, phase: Phase): State
    requires c < |s.calls|
  {
    s.(calls := s.calls[c := s.calls[c].(phase := phase)])
  }

  function Finish(s: State, i: nat, work: Q.WorkResult): State
    requires QR.Enabled(s.q, QR.Finish(i, work))
  {
    s.(q := QR.Next(s.q, QR.Finish(i, work)))
  }

  function Next(s: State, a: Action): State
    requires Enabled(s, a)
  {
    match a
    case Begin(record) => s.(calls := s.calls + [Call(record, Looking)])
    case Look(c) =>
      var key := CacheKey(s.versions, s.calls[c].record);
      MoveCall(s, c, if key in s.cache then Served(s.cache[key]) else Missed)
    case Enter(c) =>
      var record := s.calls[c].record;
      MoveCall(s, c, InQueue(|s.q.tasks|)).(
        q := QR.Next(s.q, QR.Call(QueueKey(s.versions, record))),
        jobs := s.jobs + [record],
        attempts := s.attempts + [Attempt(0, false)])
    case Queue(step) => s.(q := QR.Next(s.q, step))
    case RenderOk(i, png) =>
      Finish(s, i, Q.Done(png)).(rendered := s.rendered + {(s.jobs[i], png)})
    case RenderErr(i) => s.(attempts := s.attempts[i := s.attempts[i].(recycling := true)])
    case Recover(i, error) =>
      var counted := s.(browserRecoveries := s.browserRecoveries + 1);
      var failures := s.attempts[i].failures + 1;
      var accounted := counted.(attempts := s.attempts[i := Attempt(failures, false)]);
      if failures == 1 then accounted.(renderRetries := s.renderRetries + 1)
      else Finish(accounted, i, Q.Errored(error))
    case Expire(i) => Finish(s, i, Q.TimedOut)
    case Collect(c) =>
      var p := s.q.tasks[s.calls[c].phase.task].phase;
      MoveCall(s, c, Handling(if p.Returned? then p.outcome else Q.Failure(Busy(s.q.cfg))))
    case Handle(c) =>
      (match s.calls[c].phase.outcome
       case Success(png) =>
         MoveCall(s, c, Served(png)).(cache := s.cache[CacheKey(s.versions, s.calls[c].record) := png])
       case Failure(message) =>
         MoveCall(s, c, Failed(message)).(
           browserRecoveries := s.browserRecoveries + (if IsWorkTimeout(message) then 1 else 0)))
    case Forget(key) => s.(cache := s.cache - {key})
  }

  ghost predicate ValidRun(s: State, acts: seq<Action>)
    decreases |acts|
  {
    acts == [] || (Enabled(s, acts[0]) && ValidRun(Next(s, acts[0]), acts[1..]))
  }

  ghost function Exec(s: State, acts: seq<Action>): State
    requires ValidRun(s, acts)
    decreases |acts|
  {
    if acts == [] then s else Exec(Next(s, acts[0]), acts[1..])
  }

  // ----- which records may share a queue slot -----

  const LOADOUT_PREFIX := "loadout:"

  /** A text cut at its first two colons, when it has two. */
  function ThreeParts(x: string): Option<(string, string, string)> {
    var i := Find(x, ':');
    if i == |x| then None
    else
      var rest := x[i + 1..];
      var j := Find(rest, ':');
      if j == |rest| then None else Some((x[..i], rest[..j], rest[j + 1..]))
  }

  /** Whether an id is spelled like the cache key of some loadout. */
  predicate IsLoadoutKey(v: Versions, id: string) {
    var end := ":v" + v.loadout;
    && LOADOUT_PREFIX <= id
    && |LOADOUT_PREFIX| + |end| <= |id|
    && id[|id| - |end|..] == end
    && ThreeParts(id[|LOADOUT_PREFIX|..|id| - |end|]).Some?
  }

  /** What a caller can check: a match id is not spelled like a loadout's cache key. */
  predicate SafeRecord(v: Versions, r: Record) {
    !(r.Match? && IsLoadoutKey(v, r.MatchText()))
  }

  lemma PrefixCancels(p: string, x: string, y: string)
    requires p + x == p + y
    ensures x == y
  {
    assert x == (p + x)[|p|..];
    assert y == (p + y)[|p|..];
  }

  lemma SuffixCancels(x: string, y: string, end: string)
    requires x + end == y + end
    ensures x == y
  {
    assert |x| == |y|;
    assert x == (x + end)[..|x|];
    assert y == (y + end)[..|y|];
  }

  lemma CutAtColon(s: string)
    requires Find(s, ':') < |s|
    ensures s == s[..Find(s, ':')] + ":" + s[Find(s, ':') + 1..] && Lacks(s[..Find(s, ':')], ':')
  {
    FindIsFirst(s, ':');
    SplitAt(s, Find(s, ':'));
  }

  lemma ThreePartsRejoin(x: string)
    requires ThreeParts(x).Some?
    ensures var (a, c, d) := ThreeParts(x).value;
            x == a + ":" + (c + ":" + d) && Lacks(a, ':') && Lacks(c, ':')
  {
    CutAtColon(x);
    CutAtColon(x[Find(x, ':') + 1..]);
  }

  lemma {:induction false} ColonIsFound(s: string, i: nat)
    requires i < |s| && s[i] == ':'
    ensures Find(s, ':') <= i
  {
    if i > 0 && s[0] != ':' {
      ColonIsFound(s[1..], i - 1);
    }
  }

  lemma TwoColonsGiveThreeParts(p: string, q: string, u: string)
    ensures ThreeParts(p + ":" + (q + ":" + u)).Some?
  {
    var x := p + ":" + (q + ":" + u);
    ColonIsFound(x, |p|);
    var i := Find(x, ':');
    var rest := x[i + 1..];
    assert rest[|p| - i + |q|] == x[|p| + 1 + |q|] == ':';
    ColonIsFound(rest, |p| - i + |q|);
  }

  lemma Regroup(a: string, p: string, c: string, o: string, u: string, w: string, x: string)
    ensures a + p + c + o + c + u + w + x == a + ((p + c + (o + c + u)) + (w + x))
  {
  }

  lemma LoadoutKeyParts(v: Versions, r: Record)
    requires r.Loadout?
    ensures CacheKey(v, r)
         == LOADOUT_PREFIX + ((r.PlayerText() + ":" + (r.LoadoutText() + ":" + r.VersionText())) + (":v" + v.loadout))
  {
    Regroup(LOADOUT_PREFIX, r.PlayerText(), ":", r.LoadoutText(), r.VersionText(), ":v", v.loadout);
  }

  /** The inside of a loadout's key: what stands between its prefix and its version. */
  lemma LoadoutKeyInside(v: Versions, l: Record)
    requires l.Loadout?
    ensures var id, end := CacheKey(v, l), ":v" + v.loadout;
            && LOADOUT_PREFIX <= id && |LOADOUT_PREFIX| + |end| <= |id| && id[|id| - |end|..] == end
            && id[|LOADOUT_PREFIX|..|id| - |end|] == l.PlayerText() + ":" + (l.LoadoutText() + ":" + l.VersionText())
  {
    LoadoutKeyParts(v, l);
    Between(LOADOUT_PREFIX, l.PlayerText() + ":" + (l.LoadoutText() + ":" + l.VersionText()), ":v" + v.loadout);
  }

  lemma Between(p: string, x: string, end: string)
    ensures var s := p + (x + end);
            p <= s && s[|s| - |end|..] == end && s[|p|..|s| - |end|] == x
  {
  }

  /** A text spelled like a loadout's key is one, and of a loadout whose ids have no colons. */
  lemma SpelledLikeALoadout(v: Versions, id: string) returns (l: Record)
    requires IsLoadoutKey(v, id)
    ensures l.Loadout? && CacheKey(v, l) == id && l.Identified()
    ensures Lacks(l.PlayerText(), ':') && Lacks(l.LoadoutText(), ':')
  {
    var end := ":v" + v.loadout;
    var x := id[|LOADOUT_PREFIX|..|id| - |end|];
    ThreePartsRejoin(x);
    var (a, c, d) := ThreeParts(x).value;
    l := Loadout(Some(a), Some(c), Some(d), None, []);
    LoadoutKeyParts(v, l);
    Reassemble(LOADOUT_PREFIX, id, end);
  }

  lemma Reassemble(p: string, s: string, end: string)
    requires p <= s && |p| + |end| <= |s| && s[|s| - |end|..] == end
    ensures s == p + (s[|p|..|s| - |end|] + end)
  {
  }

  lemma LoadoutKeysAreSpelledSo(v: Versions, l: Record)
    requires l.Loadout?
    ensures IsLoadoutKey(v, CacheKey(v, l))
  {
    LoadoutKeyInside(v, l);
    TwoColonsGiveThreeParts(l.PlayerText(), l.LoadoutText(), l.VersionText());
  }

  /** The check is exact: a match is safe just when no loadout has its id as cache key. */
  lemma SafeExactlyWhenNoLoadoutHasTheKey(v: Versions, r: Record)
    ensures SafeRecord(v, r) <==> !(r.Match? && exists l: Record :: l.Loadout? && CacheKey(v, l) == r.MatchText())
  {
    if r.Match? && IsLoadoutKey(v, r.MatchText()) {
      var l := SpelledLikeALoadout(v, r.MatchText());
    }
    forall l: Record | l.Loadout? ensures IsLoadoutKey(v, CacheKey(v, l)) {
      LoadoutKeysAreSpelledSo(v, l);
    }
  }

  /** Any id without the loadout prefix is safe, in particular digits. */
  lemma UnprefixedIdsAreSafe(v: Versions, r: Record)
    requires r.Match? && (LOADOUT_PREFIX <= r.MatchText() ==> r.MatchText() == LOADOUT_PREFIX)
    ensures SafeRecord(v, r)
  {
  }

  lemma DigitIdsAreSafe(v: Versions, r: Record)
    requires r.Match? && forall i :: 0 <= i < |r.MatchText()| ==> '0' <= r.MatchText()[i] <= '9'
    ensures SafeRecord(v, r)
  {
    assert LOADOUT_PREFIX[0] == 'l';
    assert |r.MatchText()| > 0 ==> r.MatchText()[0] != 'l';
    UnprefixedIdsAreSafe(v, r);
  }

  lemma KindsHaveDifferentKeys(v: Versions, m: Record, l: Record)
    requires m.Match? && l.Loadout?
    ensures CacheKey(v, m) != CacheKey(v, l)
  {
    assert CacheKey(v, m)[0] == 'm' && CacheKey(v, l)[0] == 'l';
  }

  /** Records share a queue slot only if they share a cache key, unless one is a loadout and one a match. */
  lemma SharedSlotMeansSharedImage(v: Versions, a: Record, b: Record)
    requires QueueKey(v, a) == QueueKey(v, b)
    ensures CacheKey(v, a) == CacheKey(v, b) <==> (a.Match? <==> b.Match?)
    ensures SafeRecord(v, a) && SafeRecord(v, b) ==> (a.Match? <==> b.Match?)
  {
    if a.Match? && !b.Match? {
      KindsHaveDifferentKeys(v, a, b);
      LoadoutKeysAreSpelledSo(v, b);
    } else if !a.Match? && b.Match? {
      KindsHaveDifferentKeys(v, b, a);
      LoadoutKeysAreSpelledSo(v, a);
    }
  }

  /** Cached matches are told apart by their ids. */
  lemma MatchKeysAreInjective(v: Versions, a: Record, b: Record)
    requires a.Match? && b.Match? && CacheKey(v, a) == CacheKey(v, b)
    ensures a.MatchText() == b.MatchText()
  {
    var end := ":summary:v" + v.summary;
    assert CacheKey(v, a) == "match:" + (a.MatchText() + end) && CacheKey(v, b) == "match:" + (b.MatchText() + end);
    PrefixCancels("match:", a.MatchText() + end, b.MatchText() + end);
    SuffixCancels(a.MatchText(), b.MatchText(), end);
  }

  // ----- the invariant -----

  /** `png` is a successful render of some record with this cache key. */
  ghost predicate DrawnFor(s: State, key: string, png: Bytes) {
    exists r: Record :: (r, png) in s.rendered && CacheKey(s.versions, r) == key
  }

  ghost predicate JobOk(s: State, i: nat)
    requires i < |s.q.tasks| == |s.jobs| == |s.attempts|
  {
    && s.q.tasks[i].key == QueueKey(s.versions, s.jobs[i])
    && SafeRecord(s.versions, s.jobs[i])
    && (s.q.tasks[i].role.Producer? && QT.Carried(s.q.tasks[i]).Some? && QT.Carried(s.q.tasks[i]).value.Success? ==>
          (s.jobs[i], QT.Carried(s.q.tasks[i]).value.value) in s.rendered)
  }

  ghost predicate CallOk(s: State, c: nat)
    requires c < |s.calls|
  {
    var key := CacheKey(s.versions, s.calls[c].record);
    && SafeRecord(s.versions, s.calls[c].record)
    && match s.calls[c].phase
       case InQueue(t) => t < |s.jobs| && s.jobs[t] == s.calls[c].record
       case Handling(o) => o.Success? ==> DrawnFor(s, key, o.value)
       case Served(png) => DrawnFor(s, key, png)
       case _ => true
  }

  ghost predicate CacheOk(s: State) {
    forall k :: k in s.cache ==> DrawnFor(s, k, s.cache[k])
  }

  ghost predicate Inv(s: State) {
    && QR.Inv(s.q)
    && |s.q.tasks| == |s.jobs| == |s.attempts|
    && (forall i :: 0 <= i < |s.jobs| ==> JobOk(s, i))
    && (forall c :: 0 <= c < |s.calls| ==> CallOk(s, c))
    && CacheOk(s)
  }

  // ----- every run -----

  /** A step of the queue, made by the service with its own bookkeeping, keeps the jobs in order. */
  lemma QueueStepKeepsJobs(s: State, s': State, a: QR.Action, i: nat)
    requires Inv(s) && QR.Enabled(s.q, a) && s'.q == QR.Next(s.q, a)
    requires s'.versions == s.versions && s.rendered <= s'.rendered
    requires |s'.q.tasks| == |s'.jobs| == |s'.attempts| && s.jobs <= s'.jobs
    requires a.Finish? && a.work.Done? ==> (s.jobs[a.i], a.work.value) in s'.rendered
    requires i < |s.q.tasks|
    ensures JobOk(s', i)
  {
    assert JobOk(s, i);
    QT.StepKeepsCall(s.q, a, i);
    var t := s'.q.tasks[i];
    if t.role.Producer? && QT.Carried(t).Some? && QT.Carried(t).value.Success? {
      QT.StepSettlesOnlyByWork(s.q, a, i, QT.Carried(t).value);
    }
  }

  lemma MoreRendersKeepCalls(s: State, s': State, c: nat)
    requires c < |s.calls| && c < |s'.calls| && s'.calls[c] == s.calls[c] && CallOk(s, c)
    requires s'.versions == s.versions && s.rendered <= s'.rendered && s.jobs <= s'.jobs
    ensures CallOk(s', c)
  {
    DrawnForKept(s, s');
  }

  lemma DrawnForKept(s: State, s': State)
    requires s'.versions == s.versions && s.rendered <= s'.rendered
    ensures forall key, png :: DrawnFor(s, key, png) ==> DrawnFor(s', key, png)
  {
  }

  /** A step of the queue below leaves calls and cache alone. */
  lemma QueueStepKeepsInv(s: State, s': State, a: QR.Action)
    requires Inv(s) && QR.Enabled(s.q, a) && !a.Call? && s'.q == QR.Next(s.q, a)
    requires s'.versions == s.versions && s.rendered <= s'.rendered
    requires s'.jobs == s.jobs && |s'.attempts| == |s.attempts| && s'.calls == s.calls && s'.cache == s.cache
    requires a.Finish? && a.work.Done? ==> (s.jobs[a.i], a.work.value) in s'.rendered
    ensures Inv(s')
  {
    QR.StepKeepsInv(s.q, a);
    SameNumberOfTasks(s.q, a);
    forall i | 0 <= i < |s'.jobs| ensures JobOk(s', i) {
      QueueStepKeepsJobs(s, s', a, i);
    }
    forall c | 0 <= c < |s'.calls| ensures CallOk(s', c) {
      MoreRendersKeepCalls(s, s', c);
    }
    DrawnForKept(s, s');
  }

  lemma SameNumberOfTasks(q: QR.State, a: QR.Action)
    requires QR.Enabled(q, a)
    ensures |QR.Next(q, a).tasks| == |q.tasks| + if a.Call? then 1 else 0
  {
  }

  lemma EnterKeepsInv(s: State, c: nat)
    requires Inv(s) && Enabled(s, Enter(c))
    ensures Inv(Next(s, Enter(c)))
  {
    var s' := Next(s, Enter(c));
    var a := QR.Call(QueueKey(s.versions, s.calls[c].record));
    QR.StepKeepsInv(s.q, a);
    SameNumberOfTasks(s.q, a);
    EnterKeepsJobs(s, c);
    EnterKeepsCalls(s, c);
    DrawnForKept(s, s');
  }

  lemma EnterKeepsJobs(s: State, c: nat)
    requires Inv(s) && Enabled(s, Enter(c)) && |Next(s, Enter(c)).q.tasks| == |s.q.tasks| + 1
    ensures var s' := Next(s, Enter(c)); forall i :: 0 <= i < |s'.jobs| ==> JobOk(s', i)
  {
    var s' := Next(s, Enter(c));
    var a := QR.Call(QueueKey(s.versions, s.calls[c].record));
    forall i | 0 <= i < |s'.jobs| ensures JobOk(s', i) {
      if i < |s.jobs| {
        QueueStepKeepsJobs(s, s', a, i);
      } else {
        assert CallOk(s, c);
        NewTaskOfCall(s.q, a.key);
      }
    }
  }

  lemma EnterKeepsCalls(s: State, c: nat)
    requires |s.q.tasks| == |s.jobs| && Enabled(s, Enter(c)) && forall d :: 0 <= d < |s.calls| ==> CallOk(s, d)
    ensures var s' := Next(s, Enter(c)); forall d :: 0 <= d < |s'.calls| ==> CallOk(s', d)
  {
    var s' := Next(s, Enter(c));
    forall d | 0 <= d < |s'.calls| ensures CallOk(s', d) {
      assert CallOk(s, d);
      if d != c {
        MoreRendersKeepCalls(s, s', d);
      }
    }
  }

  lemma NewTaskOfCall(q: QR.State, key: string)
    ensures var t := QR.Next(q, QR.Call(key)).tasks[|q.tasks|]; t.key == key && QT.Carried(t).None?
  {
  }

  /** A returned task holds what the producer of its slot rendered, and shares its queue key. */
  lemma ReturnedFromProducer(s: State, i: nat) returns (p: nat)
    requires |s.q.tasks| == |s.jobs| == |s.attempts| && QR.Shape(s.q) && QR.TasksOk(s.q)
    requires forall j :: 0 <= j < |s.jobs| ==> JobOk(s, j)
    requires i < |s.q.tasks| && s.q.tasks[i].phase.Returned? && s.q.tasks[i].phase.outcome.Success?
    ensures p < |s.jobs| && SafeRecord(s.versions, s.jobs[i]) && SafeRecord(s.versions, s.jobs[p])
    ensures QueueKey(s.versions, s.jobs[i]) == QueueKey(s.versions, s.jobs[p])
    ensures (s.jobs[p], s.q.tasks[i].phase.outcome.value) in s.rendered
  {
    assert QR.TaskOk(s.q, i) && JobOk(s, i);
    p := s.q.owners[s.q.tasks[i].role.holder];
    assert QR.TaskOk(s.q, p) && JobOk(s, p);
  }

  /** The heart of the matter: what the queue hands back was drawn for this very cache key. */
  lemma QueueReturnsDrawnImage(s: State, i: nat)
    requires Inv(s) && i < |s.q.tasks| && s.q.tasks[i].phase.Returned? && s.q.tasks[i].phase.outcome.Success?
    ensures DrawnFor(s, CacheKey(s.versions, s.jobs[i]), s.q.tasks[i].phase.outcome.value)
  {
    var p := ReturnedFromProducer(s, i);
    SharedSlotMeansSharedImage(s.versions, s.jobs[i], s.jobs[p]);
  }

  /** One call moves on; whatever it wrote into the cache was drawn for its key. */
  lemma CallMoved(s: State, s': State, c: nat)
    requires Inv(s) && s'.q == s.q && s'.versions == s.versions && s'.rendered == s.rendered && s'.jobs == s.jobs
    requires s'.attempts == s.attempts && |s'.calls| == |s.calls| && c < |s.calls|
    requires forall d :: 0 <= d < |s.calls| && d != c ==> s'.calls[d] == s.calls[d]
    requires CallOk(s', c) && CacheOk(s')
    ensures Inv(s')
  {
    forall i | 0 <= i < |s'.jobs| ensures JobOk(s', i) {
      assert JobOk(s, i);
    }
    forall d | 0 <= d < |s'.calls| ensures CallOk(s', d) {
      if d != c {
        MoreRendersKeepCalls(s, s', d);
      }
    }
  }

  lemma MovedCallOk(s: State, a: Action)
    requires |s.q.tasks| == |s.jobs| && Enabled(s, a) && (a.Look? || a.Collect? || a.Handle?)
    requires CallOk(s, a.c) && CacheOk(s)
    requires a.Collect? && Next(s, a).calls[a.c].phase.outcome.Success? ==>
               DrawnFor(s, CacheKey(s.versions, s.calls[a.c].record), Next(s, a).calls[a.c].phase.outcome.value)
    ensures CallOk(Next(s, a), a.c) && CacheOk(Next(s, a))
  {
    DrawnForKept(s, Next(s, a));
  }

  lemma CallMoveKeepsInv(s: State, a: Action)
    requires Inv(s) && Enabled(s, a) && (a.Look? || a.Collect? || a.Handle?)
    ensures Inv(Next(s, a))
  {
    assert CallOk(s, a.c);
    if a.Collect? && Next(s, a).calls[a.c].phase.outcome.Success? {
      QueueReturnsDrawnImage(s, s.calls[a.c].phase.task);
    }
    MovedCallOk(s, a);
    CallMoved(s, Next(s, a), a.c);
  }

  lemma BookkeepingKeepsInv(s: State, s': State)
    requires Inv(s) && s'.q == s.q && s'.versions == s.versions && s'.rendered == s.rendered && s'.jobs == s.jobs
    requires |s'.attempts| == |s.attempts| && s.calls <= s'.calls
    requires forall c :: |s.calls| <= c < |s'.calls| ==>
               s'.calls[c].phase.Looking? && SafeRecord(s.versions, s'.calls[c].record)
    requires forall k :: k in s'.cache ==> k in s.cache && s'.cache[k] == s.cache[k]
    ensures Inv(s')
  {
    DrawnForKept(s, s');
    forall i | 0 <= i < |s'.jobs| ensures JobOk(s', i) {
      assert JobOk(s, i);
    }
    forall c | 0 <= c < |s.calls| ensures CallOk(s', c) {
      MoreRendersKeepCalls(s, s', c);
    }
  }

  /** A render ends, times out or is recovered from. */
  lemma RenderEndKeepsInv(s: State, a: Action)
    requires Inv(s) && Enabled(s, a) && (a.RenderOk? || a.Expire? || a.Recover?)
    ensures Inv(Next(s, a))
  {
    var s' := Next(s, a);
    match a
    case RenderOk(i, png) => QueueStepKeepsInv(s, s', QR.Finish(i, Q.Done(png)));
    case Expire(i) => QueueStepKeepsInv(s, s', QR.Finish(i, Q.TimedOut));
    case Recover(i, error) =>
      if s.attempts[i].failures == 0 {
        BookkeepingKeepsInv(s, s');
      } else {
        QueueStepKeepsInv(s, s', QR.Finish(i, Q.Errored(error)));
      }
  }

  lemma StepKeepsInv(s: State, a: Action)
    requires Inv(s) && Enabled(s, a) && (a.Begin? ==> SafeRecord(s.versions, a.record))
    ensures Inv(Next(s, a))
  {
    var s' := Next(s, a);
    match a
    case Begin(_) => BookkeepingKeepsInv(s, s');
    case RenderErr(_) => BookkeepingKeepsInv(s, s');
    case Forget(_) => BookkeepingKeepsInv(s, s');
    case Enter(c) => EnterKeepsInv(s, c);
    case Look(_) => CallMoveKeepsInv(s, a);
    case Collect(_) => CallMoveKeepsInv(s, a);
    case Handle(_) => CallMoveKeepsInv(s, a);
    case Queue(step) => QueueStepKeepsInv(s, s', step);
    case _ => RenderEndKeepsInv(s, a);
  }

  ghost predicate SafeRun(v: Versions, acts: seq<Action>) {
    forall k :: 0 <= k < |acts| && acts[k].Begin? ==> SafeRecord(v, acts[k].record)
  }

  lemma {:induction false} RunKeepsInv(s: State, acts: seq<Action>)
    requires Inv(s) && ValidRun(s, acts) && SafeRun(s.versions, acts)
    ensures Inv(Exec(s, acts))
    decreases |acts|
  {
    if acts != [] {
      StepKeepsInv(s, acts[0]);
      assert SafeRun(s.versions, acts[1..]) by {
        forall k | 0 <= k < |acts[1..]| && acts[1..][k].Begin? ensures SafeRecord(s.versions, acts[1..][k].record) {
          assert acts[k + 1] == acts[1..][k];
        }
      }
      RunKeepsInv(Next(s, acts[0]), acts[1..]);
    }
  }

  // ----- runs in pieces -----

  lemma {:induction false} RunsChain(s: State, acts: seq<Action>, more: seq<Action>)
    requires ValidRun(s, acts) && ValidRun(Exec(s, acts), more)
    ensures ValidRun(s, acts + more) && Exec(s, acts + more) == Exec(Exec(s, acts), more)
    decreases |acts|
  {
    if acts == [] {
      assert acts + more == more;
    } else {
      assert (acts + more)[0] == acts[0] && (acts + more)[1..] == acts[1..] + more;
      RunsChain(Next(s, acts[0]), acts[1..], more);
    }
  }

  lemma OneStep(s: State, a: Action)
    requires Enabled(s, a)
    ensures ValidRun(s, [a]) && Exec(s, [a]) == Next(s, a)
  {
    assert [a][1..] == [];
  }

  lemma RunOfOneMore(s: State, a: Action, acts: seq<Action>)
    requires Enabled(s, a) && ValidRun(Next(s, a), acts)
    ensures ValidRun(s, [a] + acts) && Exec(s, [a] + acts) == Exec(Next(s, a), acts)
  {
    assert ([a] + acts)[1..] == acts;
  }

  lemma {:induction false} RunSplitsInTwo(s: State, first: seq<Action>, rest: seq<Action>)
    requires ValidRun(s, first + rest)
    ensures ValidRun(s, first) && ValidRun(Exec(s, first), rest)
    ensures Exec(Exec(s, first), rest) == Exec(s, first + rest)
    decreases |first|
  {
    if first == [] {
      assert first + rest == rest;
    } else {
      var a, more := first[0], first[1..];
      assert first == [a] + more && (first + rest)[1..] == more + rest;
      RunSplitsInTwo(Next(s, a), more, rest);
      RunOfOneMore(s, a, more);
    }
  }

  lemma RunSplits(s: State, acts: seq<Action>, k: nat)
    requires ValidRun(s, acts) && k <= |acts|
    ensures ValidRun(s, acts[..k]) && ValidRun(Exec(s, acts[..k]), acts[k..])
    ensures Exec(Exec(s, acts[..k]), acts[k..]) == Exec(s, acts)
  {
    assert acts == acts[..k] + acts[k..];
    RunSplitsInTwo(s, acts[..k], acts[k..]);
  }

  /** The state after the first `k` actions of a run. */
  ghost function StateAt(s: State, acts: seq<Action>, k: nat): State
    requires ValidRun(s, acts) && k <= |acts|
  {
    RunSplits(s, acts, k);
    Exec(s, acts[..k])
  }

  lemma StateAtStep(s: State, acts: seq<Action>, k: nat)
    requires ValidRun(s, acts) && k < |acts|
    ensures Enabled(StateAt(s, acts, k), acts[k])
    ensures StateAt(s, acts, k + 1) == Next(StateAt(s, acts, k), acts[k])
  {
    RunSplits(s, acts, k);
    OneStep(StateAt(s, acts, k), acts[k]);
    RunsChain(s, acts[..k], [acts[k]]);
    assert acts[..k + 1] == acts[..k] + [acts[k]];
  }
}
