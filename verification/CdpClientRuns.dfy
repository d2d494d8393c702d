/** Interleavings of CDP callers, the reader task, timeouts and dropped callers. */
module CdpClientRuns {
  import opened Basics
  import opened Counting
  import opened CdpClient

  datatype Answer = Replied(reply: Reply) | TimeoutError | SendError | ChannelClosed

  datatype Phase =
    | Starting
    | Allocated
    | Registered
    | Waiting
    | SendFailed
    | TimedOut
    | Returned(answer: Answer)
    | Dropped(at: Phase)

  datatype Call = Call(id: Option<nat>, phase: Phase)

  /** `delivered` is the history of the replies that found a pending call, by id. */
  datatype State = State(k: Client, calls: seq<Call>, delivered: map<nat, Reply>)

  datatype Action =
    | Invoke
    | TakeId(c: nat)
    | Insert(c: nat)
    | Enqueue(c: nat)
    | EnqueueFails(c: nat)
    | Expire(c: nat)
    | CleanUp(c: nat)
    | Receive(c: nat)
    | ReceiveClosed(c: nat)
    | Read(id: nat, reply: Reply)
    | Drop(c: nat)

  const INIT := State(FRESH, [], map[])

  predicate At(s: State, c: nat, phase: Phase) {
    c < |s.calls| && c < |s.k.slots| && s.calls[c].phase == phase
  }

  predicate HasId(s: State, c: nat)
    requires c < |s.calls|
  {
    s.calls[c].id.Some?
  }

  predicate Enabled(s: State, a: Action) {
    match a
    case Invoke => true
    case TakeId(c) => At(s, c, Starting)
    case Insert(c) => At(s, c, Allocated) && HasId(s, c)
    case Enqueue(c) => At(s, c, Registered)
    case EnqueueFails(c) => At(s, c, Registered)
    // the timeout polls the reply before the clock
    case Expire(c) => At(s, c, Waiting) && s.k.slots[c].Empty?
    case CleanUp(c) => (At(s, c, SendFailed) || At(s, c, TimedOut)) && HasId(s, c)
    case Receive(c) => At(s, c, Waiting) && s.k.slots[c].Delivered?
    case ReceiveClosed(c) => At(s, c, Waiting) && s.k.slots[c].Closed?
    case Read(_, _) => true
    case Drop(c) =>
      c < |s.calls| && c < |s.k.slots| && !s.calls[c].phase.Returned? && !s.calls[c].phase.Dropped?
  }

  function Move(s: State, c: nat, phase: Phase): State
    requires c < |s.calls|
  {
    s.(calls := s.calls[c := s.calls[c].(phase := phase)])
  }

  function Next(s: State, a: Action): State
    requires Enabled(s, a)
  {
    match a
    case Invoke => s.(k := OpenSlot(s.k), calls := s.calls + [Call(None, Starting)])
    case TakeId(c) =>
      var (k, id) := Allocate(s.k);
      s.(k := k, calls := s.calls[c := Call(Some(id), Allocated)])
    case Insert(c) => Move(s, c, Registered).(k := Register(s.k, s.calls[c].id.value, c))
    case Enqueue(c) => Move(s, c, Waiting)
    case EnqueueFails(c) => Move(s, c, SendFailed)
    case Expire(c) => Move(s, c, TimedOut)
    case CleanUp(c) =>
      Move(s, c, Returned(if s.calls[c].phase.TimedOut? then TimeoutError else SendError)).(
        k := Unregister(s.k, s.calls[c].id.value))
    case Receive(c) => Move(s, c, Returned(Replied(s.k.slots[c].reply)))
    case ReceiveClosed(c) => Move(s, c, Returned(ChannelClosed))
    case Read(id, reply) =>
      s.(k := Deliver(s.k, id, reply),
         delivered := if id in s.k.pending then s.delivered[id := reply] else s.delivered)
    case Drop(c) => Move(s, c, Dropped(s.calls[c].phase))
  }

  ghost predicate ValidRun(s: State, acts: seq<Action>)
    decreases |acts|
  {
    acts == [] || (Enabled(s, acts[0]) && ValidRun(Next(s, acts[0]), acts[1..]))
  }

  ghost function Exec(s: State, acts: seq<Action>): State
    requires ValidRun(s, acts)
    decreases |acts|
  {
    if acts == [] then s else Exec(Next(s, acts[0]), acts[1..])
  }

  // ----- the invariant, while fewer than 2^64 calls have been made -----

  predicate Numbered(call: Call) { call.id.Some? }

  /** The entry is in the map from registration until a reply or the call's own clean-up. */
  predicate MayBePending(phase: Phase) {
    phase.Registered? || phase.Waiting? || phase.SendFailed? || phase.TimedOut?
    || (phase.Dropped? && (phase.at.Registered? || phase.at.Waiting? || phase.at.SendFailed? || phase.at.TimedOut?))
  }

  ghost predicate UnnumberedOk(s: State, c: nat)
    requires c < |s.calls| == |s.k.slots|
  {
    s.k.slots[c].Empty? && (s.calls[c].phase.Starting? || s.calls[c].phase == Dropped(Starting))
  }

  ghost predicate NumberedOk(s: State, c: nat, id: nat)
    requires c < |s.calls| == |s.k.slots|
  {
    var phase, slot := s.calls[c].phase, s.k.slots[c];
    && id < s.k.nextId
    && !phase.Starting? && phase != Dropped(Starting)
    && (slot.Empty? && MayBePending(phase) ==> id in s.k.pending)
    && (id in s.k.pending ==> s.k.pending[id] == c && slot.Empty? && MayBePending(phase))
    && (slot.Delivered? <==> id in s.delivered)
    && (slot.Delivered? ==> s.delivered[id] == slot.reply)
    && (phase.Allocated? ==> slot.Empty?)
    && !slot.Closed?
    && (phase.Returned? ==>
          && !phase.answer.ChannelClosed?
          && (phase.answer.Replied? ==> slot == Delivered(phase.answer.reply)))
  }

  ghost predicate CallOk(s: State, c: nat)
    requires c < |s.calls| == |s.k.slots|
  {
    match s.calls[c].id
    case None => UnnumberedOk(s, c)
    case Some(id) => NumberedOk(s, c, id)
  }

  ghost predicate CallsOk(s: State) {
    && |s.calls| == |s.k.slots|
    && forall c :: 0 <= c < |s.calls| ==> CallOk(s, c)
  }

  /** Ids are handed out in order without wrapping, so no two calls share one. */
  ghost predicate IdsOk(s: State) {
    && s.k.nextId == Count(s.calls, Numbered)
    && (forall c, d :: 0 <= c < d < |s.calls| && s.calls[c].id.Some? ==> s.calls[c].id != s.calls[d].id)
  }

  ghost predicate MapsOk(s: State) {
    && (forall id :: id in s.delivered ==> id !in s.k.pending && id < s.k.nextId)
    && (forall id :: id in s.k.pending ==>
          s.k.pending[id] < |s.calls| && s.calls[s.k.pending[id]].id == Some(id))
  }

  ghost predicate Inv(s: State) {
    CallsOk(s) && IdsOk(s) && MapsOk(s)
  }

  // ----- preservation -----

  /** What one call's step may change for the others: only entries and deliveries under its own id. */
  ghost predicate StepOf(s: State, s': State, c: nat)
    requires c < |s.calls|
  {
    && |s'.calls| == |s.calls| && |s'.k.slots| == |s.k.slots|
    && s'.k.nextId >= s.k.nextId
    && (forall d :: 0 <= d < |s.calls| && d != c ==> s'.calls[d] == s.calls[d])
    && (forall d :: 0 <= d < |s.k.slots| && d != c ==> s'.k.slots[d] == s.k.slots[d])
    && (forall id :: Some(id) != s'.calls[c].id ==>
          && (id in s'.k.pending <==> id in s.k.pending)
          && (id in s.k.pending ==> s'.k.pending[id] == s.k.pending[id])
          && (id in s'.delivered <==> id in s.delivered)
          && (id in s.delivered ==> s'.delivered[id] == s.delivered[id]))
  }

  lemma OtherCallsOk(s: State, s': State, c: nat)
    requires CallsOk(s) && c < |s.calls| && StepOf(s, s', c)
    requires CallOk(s', c)
    requires forall d :: 0 <= d < |s.calls| && d != c && s.calls[d].id.Some? ==> s.calls[d].id != s'.calls[c].id
    ensures CallsOk(s')
  {
    forall d | 0 <= d < |s'.calls| ensures CallOk(s', d) {
      if d != c {
        assert CallOk(s, d);
      }
    }
  }

  /** A step of a call that has its id already. */
  lemma NumberedStepKeepsInv(s: State, s': State, c: nat)
    requires Inv(s) && c < |s.calls| && StepOf(s, s', c) && CallOk(s', c)
    requires s.calls[c].id.Some? && s'.calls[c].id == s.calls[c].id && s'.k.nextId == s.k.nextId
    requires s.calls[c].id.value in s'.k.pending ==> s'.k.pending[s.calls[c].id.value] == c
    ensures Inv(s')
  {
    CountUpdate(s.calls, c, s'.calls[c], Numbered);
    assert s'.calls == s.calls[c := s'.calls[c]];
    OtherCallsOk(s, s', c);
    var id := s.calls[c].id.value;
    assert NumberedOk(s', c, id);
  }

  lemma MoveKeepsInv(s: State, a: Action)
    requires !a.Invoke? && !a.TakeId? && !a.Read?
    requires Inv(s) && Enabled(s, a) && s.calls[a.c].id.Some?
    ensures Inv(Next(s, a))
  {
    assert CallOk(s, a.c);
    NumberedStepKeepsInv(s, Next(s, a), a.c);
  }

  lemma InvokeKeepsInv(s: State)
    requires Inv(s)
    ensures Inv(Next(s, Invoke))
  {
    var s' := Next(s, Invoke);
    CountAppend(s.calls, Call(None, Starting), Numbered);
    forall c | 0 <= c < |s'.calls| ensures CallOk(s', c) {
      if c < |s.calls| {
        assert CallOk(s, c);
      }
    }
  }

  lemma TakeIdKeepsInv(s: State, c: nat)
    requires Inv(s) && Enabled(s, TakeId(c)) && |s.calls| < ID_LIMIT
    ensures Inv(Next(s, TakeId(c)))
  {
    var s' := Next(s, TakeId(c));
    assert CallOk(s, c);
    CountUpdate(s.calls, c, s'.calls[c], Numbered);
    forall d | 0 <= d < |s.calls| && s.calls[d].id.Some? ensures s.calls[d].id.value < s.k.nextId {
      assert CallOk(s, d);
    }
    forall id | id in s.k.pending ensures id < s.k.nextId {
      assert CallOk(s, s.k.pending[id]);
    }
    OtherCallsOk(s, s', c);
  }

  lemma DropUnnumberedKeepsInv(s: State, c: nat)
    requires Inv(s) && Enabled(s, Drop(c)) && s.calls[c].id.None?
    ensures Inv(Next(s, Drop(c)))
  {
    var s' := Next(s, Drop(c));
    assert CallOk(s, c);
    CountUpdate(s.calls, c, s'.calls[c], Numbered);
    OtherCallsOk(s, s', c);
  }

  lemma ReadKeepsInv(s: State, id: nat, reply: Reply)
    requires Inv(s)
    ensures Inv(Next(s, Read(id, reply)))
  {
    if id in s.k.pending {
      assert CallOk(s, s.k.pending[id]);
      NumberedStepKeepsInv(s, Next(s, Read(id, reply)), s.k.pending[id]);
    }
  }

  lemma StepKeepsInv(s: State, a: Action)
    requires Inv(s) && Enabled(s, a) && |s.calls| < ID_LIMIT
    ensures Inv(Next(s, a))
  {
    if a.Invoke? {
      InvokeKeepsInv(s);
    } else if a.TakeId? {
      TakeIdKeepsInv(s, a.c);
    } else if a.Read? {
      ReadKeepsInv(s, a.id, a.reply);
    } else {
      assert CallOk(s, a.c);
      if a.Drop? && s.calls[a.c].id.None? {
        DropUnnumberedKeepsInv(s, a.c);
      } else {
        MoveKeepsInv(s, a);
      }
    }
  }

  lemma CallsOnlyGrow(s: State, a: Action)
    requires Enabled(s, a)
    ensures |s.calls| <= |Next(s, a).calls|
  {
  }

  lemma {:induction false} CallsGrowOverRuns(s: State, acts: seq<Action>)
    requires ValidRun(s, acts)
    ensures |s.calls| <= |Exec(s, acts).calls|
    decreases |acts|
  {
    if acts != [] {
      CallsOnlyGrow(s, acts[0]);
      CallsGrowOverRuns(Next(s, acts[0]), acts[1..]);
    }
  }

  lemma {:induction false} RunKeepsInv(s: State, acts: seq<Action>)
    requires Inv(s) && ValidRun(s, acts) && |Exec(s, acts).calls| < ID_LIMIT
    ensures Inv(Exec(s, acts))
    decreases |acts|
  {
    if acts != [] {
      CallsGrowOverRuns(s, acts);
      StepKeepsInv(s, acts[0]);
      RunKeepsInv(Next(s, acts[0]), acts[1..]);
    }
  }

  // ----- what every run guarantees -----

  /** A state some run reaches with fewer than 2^64 calls. */
  ghost predicate Reachable(s: State) {
    |s.calls| < ID_LIMIT && exists acts: seq<Action> :: ValidRun(INIT, acts) && s == Exec(INIT, acts)
  }

  lemma ReachableInv(s: State)
    requires Reachable(s)
    ensures Inv(s)
  {
    var acts: seq<Action> :| ValidRun(INIT, acts) && s == Exec(INIT, acts);
    RunKeepsInv(INIT, acts);
  }

  /** Ids are distinct, pending ids belong to calls in flight, and both stay below the counter. */
  lemma IdsAreDistinct(s: State, c: nat, d: nat)
    requires Reachable(s) && c < |s.calls| && d < |s.calls| && s.calls[c].id.Some?
    ensures s.calls[c].id == s.calls[d].id ==> c == d
    ensures s.calls[c].id.value < s.k.nextId
    ensures s.calls[c].id.value in s.k.pending ==> s.k.pending[s.calls[c].id.value] == c
  {
    ReachableInv(s);
    assert CallOk(s, c);
  }

  /**
   A call that has returned left nothing pending.  It returned either the one reply that was delivered
   under its own id or an error of its own; the closed-channel branch is never taken.
  */
  lemma ReturnedCallsAreClean(s: State, c: nat)
    requires Reachable(s) && c < |s.calls| && s.calls[c].phase.Returned?
    ensures s.calls[c].id.Some? && s.calls[c].id.value !in s.k.pending
    ensures match s.calls[c].phase.answer
            case Replied(reply) => s.calls[c].id.value in s.delivered && s.delivered[s.calls[c].id.value] == reply
            case ChannelClosed => false
            case _ => true
  {
    ReachableInv(s);
    assert CallOk(s, c);
  }

  lemma PendingAreInFlight(s: State)
    requires Inv(s)
    ensures forall id :: id in s.k.pending ==>
              && s.k.pending[id] < |s.calls|
              && s.calls[s.k.pending[id]].id == Some(id)
              && MayBePending(s.calls[s.k.pending[id]].phase)
  {
    forall id | id in s.k.pending ensures MayBePending(s.calls[s.k.pending[id]].phase) {
      assert CallOk(s, s.k.pending[id]);
    }
  }

  /**
   A reply changes nothing exactly when no registered call under its id still lacks one: so late and
   repeated replies, before or after their caller wakes, and replies under unknown ids are ignored.
  */
  lemma LateRepliesChangeNothing(s: State, id: nat, reply: Reply)
    requires Reachable(s)
    ensures Next(s, Read(id, reply)) == s
       <==> forall c :: 0 <= c < |s.calls| && s.calls[c].id == Some(id) && MayBePending(s.calls[c].phase) ==>
              id in s.delivered
  {
    ReachableInv(s);
    PendingAreInFlight(s);
    if id in s.k.pending {
      assert CallOk(s, s.k.pending[id]);
      assert id !in Next(s, Read(id, reply)).k.pending;
    } else {
      forall c | 0 <= c < |s.calls| && s.calls[c].id == Some(id) && MayBePending(s.calls[c].phase)
        ensures id in s.delivered
      {
        assert CallOk(s, c);
      }
    }
  }

  /** The replies read with an id while it was pending, in order. */
  ghost function Accepted(s: State, acts: seq<Action>, id: nat): seq<Reply>
    requires ValidRun(s, acts)
    decreases |acts|
  {
    if acts == [] then []
    else
      (if acts[0].Read? && acts[0].id == id && id in s.k.pending then [acts[0].reply] else [])
      + Accepted(Next(s, acts[0]), acts[1..], id)
  }

  /** At most one reply is ever accepted for an id, and it is the one on record. */
  lemma {:induction false} AcceptedOnce(s: State, acts: seq<Action>, id: nat)
    requires Inv(s) && ValidRun(s, acts) && |Exec(s, acts).calls| < ID_LIMIT
    ensures id in s.delivered ==>
              && Accepted(s, acts, id) == [] && id in Exec(s, acts).delivered
              && Exec(s, acts).delivered[id] == s.delivered[id]
    ensures id !in s.delivered ==>
              Accepted(s, acts, id) == if id in Exec(s, acts).delivered then [Exec(s, acts).delivered[id]] else []
    decreases |acts|
  {
    if acts != [] {
      CallsGrowOverRuns(s, acts);
      StepKeepsInv(s, acts[0]);
      AcceptedOnce(Next(s, acts[0]), acts[1..], id);
    }
  }

  /** End to end: what a call returns as a reply is the only reply accepted under its id in the run. */
  lemma RepliesReachTheirCall(acts: seq<Action>, c: nat)
    requires ValidRun(INIT, acts) && c < |Exec(INIT, acts).calls| < ID_LIMIT
    requires Exec(INIT, acts).calls[c].phase.Returned? && Exec(INIT, acts).calls[c].phase.answer.Replied?
    ensures var call := Exec(INIT, acts).calls[c];
            call.id.Some? && Accepted(INIT, acts, call.id.value) == [call.phase.answer.reply]
  {
    RunKeepsInv(INIT, acts);
    assert CallOk(Exec(INIT, acts), c);
    AcceptedOnce(INIT, acts, Exec(INIT, acts).calls[c].id.value);
  }

  /**
   Why the bound on calls matters: once an id comes round again while its first owner still waits,
   registering it drops that owner's sender, and the owner returns the closed-channel error.
  */
  lemma ReusedIdClosesEarlierCall(s: State, c: nat, d: nat, id: nat)
    requires Enabled(s, Insert(c)) && s.calls[c].id == Some(id) && c != d
    requires At(s, d, Waiting) && s.k.slots[d].Empty? && id in s.k.pending && s.k.pending[id] == d
    ensures Enabled(Next(s, Insert(c)), ReceiveClosed(d))
    ensures forall reply :: !Enabled(Next(Next(s, Insert(c)), Read(id, reply)), Receive(d))
  {
  }

  // ----- progress -----

  /** A step a call takes for itself. */
  predicate OwnStep(a: Action) {
    !a.Invoke? && !a.Read? && !a.Drop?
  }

  /** A step a call takes once its command has been handed to the channel, or has failed to be. */
  predicate AfterSending(a: Action) {
    a.Expire? || a.CleanUp? || a.Receive? || a.ReceiveClosed?
  }

  /** The most steps a call has left to take. */
  function Remaining(call: Call): nat {
    match call.phase
    case Starting => 5
    case Allocated => 4
    case Registered => 3
    case Waiting => 2
    case SendFailed => 1
    case TimedOut => 1
    case Returned(_) => 0
    case Dropped(_) => 0
  }

  function OwnSteps(acts: seq<Action>): nat {
    if acts == [] then 0 else (if OwnStep(acts[0]) then 1 else 0) + OwnSteps(acts[1..])
  }

  lemma StepUsesRemaining(s: State, a: Action)
    requires Enabled(s, a) && !a.Invoke?
    ensures Sum(Next(s, a).calls, Remaining) + (if OwnStep(a) then 1 else 0) <= Sum(s.calls, Remaining)
  {
    if !a.Read? {
      SumUpdate(s.calls, a.c, Next(s, a).calls[a.c], Remaining);
    }
  }

  /** Without new calls every schedule stops, whatever replies arrive: each call has at most five steps. */
  lemma {:induction false} EveryScheduleStops(s: State, acts: seq<Action>)
    requires ValidRun(s, acts) && forall k :: 0 <= k < |acts| ==> !acts[k].Invoke?
    ensures OwnSteps(acts) + Sum(Exec(s, acts).calls, Remaining) <= Sum(s.calls, Remaining)
    decreases |acts|
  {
    if acts != [] {
      StepUsesRemaining(s, acts[0]);
      EveryScheduleStops(Next(s, acts[0]), acts[1..]);
    }
  }

  predicate BeforeSending(phase: Phase) {
    phase.Starting? || phase.Allocated? || phase.Registered?
  }

  /** No call that has sent its command, or failed to, can take a step of its own. */
  ghost predicate Quiescent(s: State) {
    forall a: Action :: AfterSending(a) ==> !Enabled(s, a)
  }

  lemma SentIsNotStuck(s: State, c: nat)
    requires Inv(s) && c < |s.calls| && !BeforeSending(s.calls[c].phase)
    requires !s.calls[c].phase.Returned? && !s.calls[c].phase.Dropped?
    ensures !Quiescent(s)
  {
    assert CallOk(s, c);
    if s.calls[c].phase.Waiting? {
      assert Enabled(s, Expire(c)) || Enabled(s, Receive(c));
    } else {
      assert Enabled(s, CleanUp(c));
    }
  }

  /** And it stops with every call whose command was sent, or failed to be, returned or dropped. */
  lemma QuiescentMeansSettled(s: State)
    requires Reachable(s)
    ensures Quiescent(s) <==> forall c :: 0 <= c < |s.calls| ==>
              BeforeSending(s.calls[c].phase) || s.calls[c].phase.Returned? || s.calls[c].phase.Dropped?
  {
    ReachableInv(s);
    if Quiescent(s) {
      forall c | 0 <= c < |s.calls|
        ensures BeforeSending(s.calls[c].phase) || s.calls[c].phase.Returned? || s.calls[c].phase.Dropped?
      {
        if !BeforeSending(s.calls[c].phase) && !s.calls[c].phase.Returned? && !s.calls[c].phase.Dropped? {
          SentIsNotStuck(s, c);
        }
      }
    }
  }

  // ----- dropped callers -----

  function ReadsOf(acts: seq<Action>, id: nat): nat {
    if acts == [] then 0 else (if acts[0].Read? && acts[0].id == id then 1 else 0) + ReadsOf(acts[1..], id)
  }

  lemma DroppedStaysPending(s: State, a: Action, c: nat)
    requires Inv(s) && Enabled(s, a) && c < |s.calls| && s.calls[c].phase.Dropped? && s.calls[c].id.Some?
    ensures c < |Next(s, a).calls| && Next(s, a).calls[c] == s.calls[c]
    ensures var id := s.calls[c].id.value;
            id in Next(s, a).k.pending <==> id in s.k.pending && !(a.Read? && a.id == id)
  {
    assert CallOk(s, c);
    if !a.Invoke? && !a.Read? {
      assert CallOk(s, a.c);
    }
  }

  /**
   A caller dropped after registering leaks its entry: nothing but a reply with its id ever removes it.
  */
  lemma {:induction false} DroppedCallLeaksUntilReply(s: State, acts: seq<Action>, c: nat)
    requires Inv(s) && ValidRun(s, acts) && |Exec(s, acts).calls| < ID_LIMIT
    requires c < |s.calls| && s.calls[c].phase.Dropped? && s.calls[c].id.Some? && s.calls[c].id.value in s.k.pending
    ensures s.calls[c].id.value in Exec(s, acts).k.pending <==> ReadsOf(acts, s.calls[c].id.value) == 0
    decreases |acts|
  {
    if acts != [] {
      CallsGrowOverRuns(s, acts);
      StepKeepsInv(s, acts[0]);
      DroppedStaysPending(s, acts[0], c);
      if acts[0].Read? && acts[0].id == s.calls[c].id.value {
        DroppedStaysGone(Next(s, acts[0]), acts[1..], c);
      } else {
        DroppedCallLeaksUntilReply(Next(s, acts[0]), acts[1..], c);
      }
    }
  }

  lemma {:induction false} DroppedStaysGone(s: State, acts: seq<Action>, c: nat)
    requires Inv(s) && ValidRun(s, acts) && |Exec(s, acts).calls| < ID_LIMIT
    requires c < |s.calls| && s.calls[c].phase.Dropped? && s.calls[c].id.Some? && s.calls[c].id.value !in s.k.pending
    ensures s.calls[c].id.value !in Exec(s, acts).k.pending
    decreases |acts|
  {
    if acts != [] {
      CallsGrowOverRuns(s, acts);
      StepKeepsInv(s, acts[0]);
      DroppedStaysPending(s, acts[0], c);
      DroppedStaysGone(Next(s, acts[0]), acts[1..], c);
    }
  }

  // ----- errors -----

  /** The call has not timed out yet. */
  predicate NotTimedOut(s: State, c: nat) {
    c < |s.calls| ==> !s.calls[c].phase.TimedOut? && s.calls[c].phase != Returned(TimeoutError)
  }

  predicate NotFailed(s: State, c: nat) {
    c < |s.calls| ==> !s.calls[c].phase.SendFailed? && s.calls[c].phase != Returned(SendError)
  }

  lemma {:induction false} TimeoutsHappened(s: State, acts: seq<Action>, c: nat) returns (k: nat)
    requires ValidRun(s, acts) && NotTimedOut(s, c) && !NotTimedOut(Exec(s, acts), c)
    ensures k < |acts| && acts[k] == Expire(c)
    decreases |acts|
  {
    if acts[0] == Expire(c) {
      k := 0;
    } else {
      k := TimeoutsHappened(Next(s, acts[0]), acts[1..], c);
      k := k + 1;
    }
  }

  lemma {:induction false} FailuresHappened(s: State, acts: seq<Action>, c: nat) returns (k: nat)
    requires ValidRun(s, acts) && NotFailed(s, c) && !NotFailed(Exec(s, acts), c)
    ensures k < |acts| && acts[k] == EnqueueFails(c)
    decreases |acts|
  {
    if acts[0] == EnqueueFails(c) {
      k := 0;
    } else {
      k := FailuresHappened(Next(s, acts[0]), acts[1..], c);
      k := k + 1;
    }
  }

  /** A call is told of a timeout only when its own timer fired, of a failed send only when sending failed. */
  lemma ErrorsTellWhatHappened(acts: seq<Action>, c: nat)
    requires ValidRun(INIT, acts) && c < |Exec(INIT, acts).calls|
    ensures Exec(INIT, acts).calls[c].phase == Returned(TimeoutError) ==> Expire(c) in acts
    ensures Exec(INIT, acts).calls[c].phase == Returned(SendError) ==> EnqueueFails(c) in acts
  {
    if Exec(INIT, acts).calls[c].phase == Returned(TimeoutError) {
      var k := TimeoutsHappened(INIT, acts, c);
    }
    if Exec(INIT, acts).calls[c].phase == Returned(SendError) {
      var k := FailuresHappened(INIT, acts, c);
    }
  }

  /** Ids are the whole numbers below 2^64 in turn, starting over after the last. */
  lemma IdsComeInTurn(k: Client)
    requires k.nextId < 18_446_744_073_709_551_616
    ensures Allocate(k).1 == k.nextId
    ensures Allocate(k).0.nextId == if k.nextId == 18_446_744_073_709_551_615 then 0 else k.nextId + 1
  {
  }
}
