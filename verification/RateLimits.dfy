/**
 The fixed-window command limiter and the image cooldown.

 Instants and durations are numbers of one unit; `Elapsed` saturates as `Instant::duration_since`
 does.  The cooldown counts milliseconds.  Each claim runs under the store's write lock, so a run is a
 sequence of claims; the whole-run results suppose their times do not decrease.
*/
module RateLimits {
  import opened Basics

  // ----- the fixed window -----

  datatype RateWindow = RateWindow(started: nat, count: nat)

  type Windows = map<string, RateWindow>

  function Elapsed(now: nat, since: nat): nat {
    if now <= since then 0 else now - since
  }

  /** One claim in one window: the window after it, and the answer. */
  function ClaimIn(w: RateWindow, limit: nat): (RateWindow, bool) {
    if w.count >= limit then (w, false) else (w.(count := w.count + 1), true)
  }

  /** A single key that never loses its window, until a claim after expiry starts a new one. */
  function ClaimAlone(w: Option<RateWindow>, limit: nat, window: nat, now: nat): (RateWindow, bool) {
    if w.Some? && Elapsed(now, w.value.started) < window then ClaimIn(w.value, limit)
    else ClaimIn(RateWindow(now, 0), limit)
  }

  function Live(ws: Windows, window: nat, now: nat): Windows {
    map key | key in ws && Elapsed(now, ws[key].started) < window :: ws[key]
  }

  function Lookup(ws: Windows, key: string): Option<RateWindow> {
    if key in ws then Some(ws[key]) else None
  }

  class WindowStore {
    var windows: Windows

    constructor ()
      ensures windows == map[]
    {
      windows := map[];
    }

    /** A claim drops every expired window, then answers as if its key had the store to itself. */
    method Claim(key: string, limit: nat, window: nat, now: nat) returns (ok: bool)
      modifies this
      ensures (windows, ok) == ClaimStep(old(windows), key, limit, window, now)
    {
      windows := Live(windows, window, now);
      if key !in windows {
        windows := windows[key := RateWindow(now, 0)];
      }
      if Elapsed(now, windows[key].started) >= window {
        windows := windows[key := RateWindow(now, 0)];
      }
      if windows[key].count >= limit {
        assert windows == Live(old(windows), window, now)[key := windows[key]];
        return false;
      }
      windows := windows[key := windows[key].(count := windows[key].count + 1)];
      assert windows == Live(old(windows), window, now)[key := windows[key]];
      return true;
    }
  }

  function ClaimStep(ws: Windows, key: string, limit: nat, window: nat, now: nat): (Windows, bool) {
    var (w, ok) := ClaimAlone(Lookup(ws, key), limit, window, now);
    (Live(ws, window, now)[key := w], ok)
  }

  // ----- runs -----

  datatype Request = Request(key: string, now: nat)

  predicate InOrder(rs: seq<Request>, after: nat) {
    rs == [] || (after <= rs[0].now && InOrder(rs[1..], rs[0].now))
  }

  predicate Ordered(ts: seq<nat>, after: nat) {
    ts == [] || (after <= ts[0] && Ordered(ts[1..], ts[0]))
  }

  /** What the store answers to each claim. */
  function Answers(ws: Windows, rs: seq<Request>, limit: nat, window: nat): (r: seq<bool>)
    ensures |r| == |rs|
    decreases rs
  {
    if rs == [] then []
    else
      var (next, ok) := ClaimStep(ws, rs[0].key, limit, window, rs[0].now);
      [ok] + Answers(next, rs[1..], limit, window)
  }

  /** What one key alone would be answered, with no pruning and no other keys. */
  function Alone(w: Option<RateWindow>, ts: seq<nat>, limit: nat, window: nat): (r: seq<bool>)
    ensures |r| == |ts|
    decreases ts
  {
    if ts == [] then []
    else
      var (next, ok) := ClaimAlone(w, limit, window, ts[0]);
      [ok] + Alone(Some(next), ts[1..], limit, window)
  }

  function TimesOf(rs: seq<Request>, key: string): seq<nat> {
    if rs == [] then []
    else (if rs[0].key == key then [rs[0].now] else []) + TimesOf(rs[1..], key)
  }

  function AnswersOf(rs: seq<Request>, answers: seq<bool>, key: string): seq<bool>
    requires |rs| == |answers|
  {
    if rs == [] then []
    else (if rs[0].key == key then [answers[0]] else []) + AnswersOf(rs[1..], answers[1..], key)
  }

  /** The store remembers the key's window, or the window has expired by `now`. */
  predicate Remembers(ws: Windows, key: string, w: Option<RateWindow>, window: nat, now: nat) {
    if key in ws then w == Some(ws[key])
    else w.Some? ==> Elapsed(now, w.value.started) >= window
  }

  lemma ClaimsAgree(ws: Windows, key: string, w: Option<RateWindow>, r: Request, limit: nat, window: nat, after: nat)
    requires Remembers(ws, key, w, window, after) && after <= r.now
    ensures var (next, ok) := ClaimStep(ws, r.key, limit, window, r.now);
            if r.key == key then
              ok == ClaimAlone(w, limit, window, r.now).1
              && Remembers(next, key, Some(ClaimAlone(w, limit, window, r.now).0), window, r.now)
            else Remembers(next, key, w, window, r.now)
  {
  }

  lemma {:induction false} AnswersMatchAlone(
      ws: Windows, key: string, w: Option<RateWindow>, rs: seq<Request>, limit: nat, window: nat, after: nat)
    requires Remembers(ws, key, w, window, after) && InOrder(rs, after)
    ensures AnswersOf(rs, Answers(ws, rs, limit, window), key) == Alone(w, TimesOf(rs, key), limit, window)
    decreases rs
  {
    if rs != [] {
      ClaimsAgree(ws, key, w, rs[0], limit, window, after);
      var (next, ok) := ClaimStep(ws, rs[0].key, limit, window, rs[0].now);
      var answers := Answers(ws, rs, limit, window);
      assert answers[1..] == Answers(next, rs[1..], limit, window);
      if rs[0].key == key {
        var w' := ClaimAlone(w, limit, window, rs[0].now).0;
        AnswersMatchAlone(next, key, Some(w'), rs[1..], limit, window, rs[0].now);
        assert TimesOf(rs, key)[1..] == TimesOf(rs[1..], key);
      } else {
        AnswersMatchAlone(next, key, w, rs[1..], limit, window, rs[0].now);
        assert AnswersOf(rs, answers, key) == AnswersOf(rs[1..], answers[1..], key);
        assert TimesOf(rs, key) == TimesOf(rs[1..], key);
      }
    }
  }

  /** Keys do not affect each other, and dropping expired windows never changes an answer. */
  lemma KeysAreIndependent(rs: seq<Request>, key: string, limit: nat, window: nat)
    requires InOrder(rs, 0)
    ensures AnswersOf(rs, Answers(map[], rs, limit, window), key) == Alone(None, TimesOf(rs, key), limit, window)
  {
    AnswersMatchAlone(map[], key, None, rs, limit, window, 0);
  }

  /** After a claim the store holds no expired window, and still holds every other one that has not expired. */
  lemma ClaimsForgetExpiredWindows(ws: Windows, key: string, limit: nat, window: nat, now: nat)
    requires window > 0
    ensures var after := ClaimStep(ws, key, limit, window, now).0;
            && key in after
            && (forall k :: k in after ==> now < after[k].started + window)
            && (forall k :: k in ws && now < ws[k].started + window ==> k in after)
            && (forall k :: k in after && k != key ==> k in ws && after[k] == ws[k])
  {
  }

  // ----- how many claims are granted -----

  /** How many of the claims at times in [lo, hi) were granted. */
  function Granted(ts: seq<nat>, answers: seq<bool>, lo: int, hi: int): nat
    requires |ts| == |answers|
  {
    if ts == [] then 0
    else (if answers[0] && lo <= ts[0] < hi then 1 else 0) + Granted(ts[1..], answers[1..], lo, hi)
  }

  lemma {:induction false} NothingGrantedLater(ts: seq<nat>, answers: seq<bool>, lo: int, hi: int, after: nat)
    requires |ts| == |answers| && Ordered(ts, after) && hi <= after
    ensures Granted(ts, answers, lo, hi) == 0
  {
    if ts != [] {
      NothingGrantedLater(ts[1..], answers[1..], lo, hi, ts[0]);
    }
  }

  /** What [lo, lo + window) can still hold once a window has started and granted `w.count` claims. */
  function Room(w: RateWindow, limit: nat, window: nat, lo: int): int {
    if lo <= w.started then limit - w.count
    else if lo < w.started + window then 2 * limit - w.count
    else 2 * limit - 1
  }

  lemma {:induction false} GrantsFitTheRoom(w: RateWindow, ts: seq<nat>, limit: nat, window: nat, lo: int, after: nat)
    requires 1 <= w.count <= limit && w.started <= after && Ordered(ts, after)
    ensures Granted(ts, Alone(Some(w), ts, limit, window), lo, lo + window) <= Room(w, limit, window, lo)
    decreases ts
  {
    if ts != [] {
      var next := ClaimAlone(Some(w), limit, window, ts[0]).0;
      assert Alone(Some(w), ts, limit, window)[1..] == Alone(Some(next), ts[1..], limit, window);
      GrantsFitTheRoom(next, ts[1..], limit, window, lo, ts[0]);
      if lo + window <= ts[0] {
        NothingGrantedLater(ts[1..], Alone(Some(next), ts[1..], limit, window), lo, lo + window, ts[0]);
      }
    }
  }

  /** Any interval as long as the window, wherever it starts, holds at most 2L - 1 grants. */
  lemma AtMostTwiceTheLimitLessOne(ts: seq<nat>, limit: nat, window: nat, lo: int)
    requires limit >= 1 && Ordered(ts, 0)
    ensures Granted(ts, Alone(None, ts, limit, window), lo, lo + window) <= 2 * limit - 1
  {
    if ts != [] {
      var first := RateWindow(ts[0], 1);
      assert Alone(None, ts, limit, window)[1..] == Alone(Some(first), ts[1..], limit, window);
      GrantsFitTheRoom(first, ts[1..], limit, window, lo, ts[0]);
    }
  }

  /** A window that starts with a claim holds at most L grants, that claim's included. */
  lemma AtMostTheLimitInAWindow(w: Option<RateWindow>, ts: seq<nat>, limit: nat, window: nat)
    requires limit >= 1 && ts != [] && Ordered(ts, 0)
    requires w.Some? ==> Elapsed(ts[0], w.value.started) >= window
    ensures Granted(ts, Alone(w, ts, limit, window), ts[0], ts[0] + window) <= limit
  {
    var first := RateWindow(ts[0], 1);
    assert Alone(w, ts, limit, window)[1..] == Alone(Some(first), ts[1..], limit, window);
    GrantsFitTheRoom(first, ts[1..], limit, window, ts[0], ts[0]);
  }

  function Repeat(x: nat, n: nat): (r: seq<nat>)
    ensures |r| == n
  {
    if n == 0 then [] else [x] + Repeat(x, n - 1)
  }

  lemma {:induction false} BurstIsGranted(
      w: RateWindow, t: nat, n: nat, rest: seq<nat>, limit: nat, window: nat, lo: int)
    requires w.count + n <= limit && w.started <= t < w.started + window
    ensures Granted(Repeat(t, n) + rest, Alone(Some(w), Repeat(t, n) + rest, limit, window), lo, lo + window)
         == (if lo <= t < lo + window then n else 0)
            + Granted(rest, Alone(Some(w.(count := w.count + n)), rest, limit, window), lo, lo + window)
    decreases n
  {
    if n == 0 {
      assert Repeat(t, n) + rest == rest;
    } else {
      var ts := Repeat(t, n) + rest;
      var next := w.(count := w.count + 1);
      assert ts[1..] == Repeat(t, n - 1) + rest;
      assert Alone(Some(w), ts, limit, window)[1..] == Alone(Some(next), ts[1..], limit, window);
      BurstIsGranted(next, t, n - 1, rest, limit, window, lo);
    }
  }

  /** One claim, L - 1 more as its window ends, and L as the next one opens. */
  function Straddle(limit: nat, window: nat): (ts: seq<nat>)
    requires limit >= 1 && window >= 2
  {
    var first: seq<nat> := [0];
    first + (Repeat(window - 1, limit - 1) + ([window] + Repeat(window, limit - 1)))
  }

  /** The bound of 2L - 1 is attained. */
  lemma TwiceTheLimitLessOneIsAttained(limit: nat, window: nat)
    requires limit >= 1 && window >= 2
    ensures var ts := Straddle(limit, window);
            Granted(ts, Alone(None, ts, limit, window), window - 1, window - 1 + window) == 2 * limit - 1
  {
    var lo := window - 1;
    var tail := Repeat(window, limit - 1);
    var late: seq<nat> := [window] + tail;
    var early: seq<nat> := Repeat(window - 1, limit - 1) + late;
    var ts := Straddle(limit, window);
    assert ts[1..] == early && late[1..] == tail == tail + [];
    assert Alone(None, ts, limit, window)[1..] == Alone(Some(RateWindow(0, 1)), early, limit, window);
    BurstIsGranted(RateWindow(0, 1), window - 1, limit - 1, late, limit, window, lo);
    assert Alone(Some(RateWindow(0, limit)), late, limit, window)[1..]
        == Alone(Some(RateWindow(window, 1)), tail, limit, window);
    BurstIsGranted(RateWindow(window, 1), window, limit - 1, [], limit, window, lo);
  }

  lemma {:induction false} RefusalNeedsGrants(w: RateWindow, ts: seq<nat>, i: nat, limit: nat, window: nat, after: nat)
    requires w.count <= limit && w.started <= after && Ordered(ts, after)
    requires i < |ts| && !Alone(Some(w), ts, limit, window)[i]
    ensures var before := Granted(ts[..i], Alone(Some(w), ts, limit, window)[..i], ts[i] - window + 1, ts[i] + 1);
            (w.started > ts[i] - window && before >= limit - w.count) || before >= limit
    decreases ts
  {
    var answers := Alone(Some(w), ts, limit, window);
    if i > 0 {
      var next := ClaimAlone(Some(w), limit, window, ts[0]).0;
      assert answers[1..] == Alone(Some(next), ts[1..], limit, window);
      RefusalNeedsGrants(next, ts[1..], i - 1, limit, window, ts[0]);
      OrderedAt(ts, after, i);
      assert ts[..i][1..] == ts[1..][..i - 1] && answers[..i][1..] == answers[1..][..i - 1];
    }
  }

  lemma {:induction false} OrderedAt(ts: seq<nat>, after: nat, i: nat)
    requires Ordered(ts, after) && i < |ts|
    ensures after <= ts[0] <= ts[i]
  {
    if i > 0 {
      OrderedAt(ts[1..], ts[0], i - 1);
    }
  }

  /** A claim is refused only after L grants within the window length that ends with it. */
  lemma RefusedOnlyWhenFull(ts: seq<nat>, i: nat, limit: nat, window: nat)
    requires limit >= 1 && Ordered(ts, 0) && i < |ts| && !Alone(None, ts, limit, window)[i]
    ensures Granted(ts[..i], Alone(None, ts, limit, window)[..i], ts[i] - window + 1, ts[i] + 1) >= limit
  {
    var answers := Alone(None, ts, limit, window);
    var first := RateWindow(ts[0], 1);
    assert answers[1..] == Alone(Some(first), ts[1..], limit, window);
    RefusalNeedsGrants(first, ts[1..], i - 1, limit, window, ts[0]);
    OrderedAt(ts, 0, i);
    assert ts[..i][1..] == ts[1..][..i - 1] && answers[..i][1..] == answers[1..][..i - 1];
  }

  // ----- the command limits -----

  const USER_LIMIT: nat := 8
  const GUILD_LIMIT: nat := 40

  class CommandLimits {
    const users: WindowStore
    const guilds: WindowStore
    const tenSeconds: nat

    ghost predicate Valid() {
      users != guilds
    }

    constructor (tenSeconds: nat)
      ensures Valid() && this.tenSeconds == tenSeconds
      ensures fresh(users) && fresh(guilds) && users.windows == map[] && guilds.windows == map[]
    {
      this.tenSeconds := tenSeconds;
      users := new WindowStore();
      guilds := new WindowStore();
    }

    /**
     Both stores are charged whatever the other one answers; the command goes ahead when both agree.
     Each store reads the clock for itself.
    */
    method ClaimCommandRate(user: Option<string>, guild: Option<string>, now: nat, later: nat) returns (ok: bool)
      requires Valid()
      modifies users, guilds
      ensures ok == (UserOk(old(users.windows), user, tenSeconds, now).1
                     && GuildOk(old(guilds.windows), guild, tenSeconds, later).1)
      ensures users.windows == UserOk(old(users.windows), user, tenSeconds, now).0
      ensures guilds.windows == GuildOk(old(guilds.windows), guild, tenSeconds, later).0
    {
      var userOk, guildOk := true, true;
      if user.Some? {
        userOk := users.Claim(user.value, USER_LIMIT, tenSeconds, now);
      }
      if guild.Some? {
        guildOk := guilds.Claim(guild.value, GUILD_LIMIT, tenSeconds, later);
      }
      ok := userOk && guildOk;
    }
  }

  function ClaimIfKnown(ws: Windows, key: Option<string>, limit: nat, window: nat, now: nat): (Windows, bool) {
    if key.None? then (ws, true) else ClaimStep(ws, key.value, limit, window, now)
  }

  function UserOk(ws: Windows, user: Option<string>, window: nat, now: nat): (Windows, bool) {
    ClaimIfKnown(ws, user, USER_LIMIT, window, now)
  }

  function GuildOk(ws: Windows, guild: Option<string>, window: nat, now: nat): (Windows, bool) {
    ClaimIfKnown(ws, guild, GUILD_LIMIT, window, now)
  }

  // ----- runs of commands -----

  datatype Command = Command(user: Option<string>, guild: Option<string>, now: nat, later: nat)

  /** What one store is asked by a run of commands; a missing key is always let through. */
  datatype Charge = Charge(key: Option<string>, now: nat)

  function UserCharges(cs: seq<Command>): (r: seq<Charge>)
    ensures |r| == |cs|
  {
    if cs == [] then [] else [Charge(cs[0].user, cs[0].now)] + UserCharges(cs[1..])
  }

  function GuildCharges(cs: seq<Command>): (r: seq<Charge>)
    ensures |r| == |cs|
  {
    if cs == [] then [] else [Charge(cs[0].guild, cs[0].later)] + GuildCharges(cs[1..])
  }

  function ChargeAnswers(ws: Windows, cs: seq<Charge>, limit: nat, window: nat): (r: seq<bool>)
    ensures |r| == |cs|
    decreases cs
  {
    if cs == [] then []
    else
      var (next, ok) := ClaimIfKnown(ws, cs[0].key, limit, window, cs[0].now);
      [ok] + ChargeAnswers(next, cs[1..], limit, window)
  }

  /** Which commands of a run go ahead, by the method's own contract. */
  function CommandAnswers(users: Windows, guilds: Windows, cs: seq<Command>, tenSeconds: nat): (r: seq<bool>)
    ensures |r| == |cs|
    decreases cs
  {
    if cs == [] then []
    else
      var (us, userOk) := UserOk(users, cs[0].user, tenSeconds, cs[0].now);
      var (gs, guildOk) := GuildOk(guilds, cs[0].guild, tenSeconds, cs[0].later);
      [userOk && guildOk] + CommandAnswers(us, gs, cs[1..], tenSeconds)
  }

  /** How many charges of `key` at times in [lo, hi) come with a yes. */
  function Allowed(cs: seq<Charge>, answers: seq<bool>, key: string, lo: int, hi: int): nat
    requires |cs| == |answers|
  {
    if cs == [] then 0
    else (if answers[0] && cs[0].key == Some(key) && lo <= cs[0].now < hi then 1 else 0)
         + Allowed(cs[1..], answers[1..], key, lo, hi)
  }

  function Known(cs: seq<Charge>): seq<Request> {
    if cs == [] then []
    else (if cs[0].key.Some? then [Request(cs[0].key.value, cs[0].now)] else []) + Known(cs[1..])
  }

  predicate ChargesInOrder(cs: seq<Charge>, after: nat) {
    cs == [] || (after <= cs[0].now && ChargesInOrder(cs[1..], cs[0].now))
  }

  lemma {:induction false} InOrderIsMonotone(rs: seq<Request>, after: nat, earlier: nat)
    requires InOrder(rs, after) && earlier <= after
    ensures InOrder(rs, earlier)
  {
  }

  lemma {:induction false} KnownInOrder(cs: seq<Charge>, after: nat)
    requires ChargesInOrder(cs, after)
    ensures InOrder(Known(cs), after)
  {
    if cs != [] {
      KnownInOrder(cs[1..], cs[0].now);
      InOrderIsMonotone(Known(cs[1..]), cs[0].now, after);
      assert cs[0].key.Some? ==> Known(cs)[1..] == Known(cs[1..]);
      assert cs[0].key.None? ==> Known(cs) == Known(cs[1..]);
    }
  }

  lemma {:induction false} TimesInOrder(rs: seq<Request>, key: string, after: nat)
    requires InOrder(rs, after)
    ensures Ordered(TimesOf(rs, key), after)
  {
    if rs != [] {
      TimesInOrder(rs[1..], key, rs[0].now);
      var rest := TimesOf(rs[1..], key);
      assert rs[0].key == key ==> TimesOf(rs, key)[1..] == rest;
      assert rs[0].key != key ==> TimesOf(rs, key) == rest;
    }
  }

  lemma {:induction false} AllowedIsGranted(
      ws: Windows, cs: seq<Charge>, key: string, limit: nat, window: nat, lo: int, hi: int)
    ensures var rs := Known(cs);
            var answers := Answers(ws, rs, limit, window);
            |TimesOf(rs, key)| == |AnswersOf(rs, answers, key)|
            && Allowed(cs, ChargeAnswers(ws, cs, limit, window), key, lo, hi)
            == Granted(TimesOf(rs, key), AnswersOf(rs, answers, key), lo, hi)
    decreases cs
  {
    if cs != [] {
      var next := ClaimIfKnown(ws, cs[0].key, limit, window, cs[0].now).0;
      AllowedIsGranted(next, cs[1..], key, limit, window, lo, hi);
      assert ChargeAnswers(ws, cs, limit, window)[1..] == ChargeAnswers(next, cs[1..], limit, window);
      var rs, rest := Known(cs), Known(cs[1..]);
      var answers := Answers(ws, rs, limit, window);
      if cs[0].key.None? {
        assert rs == rest;
      } else {
        assert rs[1..] == rest;
        assert answers[1..] == Answers(next, rest, limit, window);
        var ts, yes := TimesOf(rs, key), AnswersOf(rs, answers, key);
        if cs[0].key.value == key {
          assert ts[1..] == TimesOf(rest, key) && yes[1..] == AnswersOf(rest, answers[1..], key);
        } else {
          assert ts == TimesOf(rest, key) && yes == AnswersOf(rest, answers[1..], key);
        }
      }
    }
  }

  lemma ChargesAreBounded(cs: seq<Charge>, key: string, limit: nat, window: nat, lo: int)
    requires limit >= 1 && ChargesInOrder(cs, 0)
    ensures Allowed(cs, ChargeAnswers(map[], cs, limit, window), key, lo, lo + window) <= 2 * limit - 1
  {
    KnownInOrder(cs, 0);
    AllowedIsGranted(map[], cs, key, limit, window, lo, lo + window);
    KeysAreIndependent(Known(cs), key, limit, window);
    TimesInOrder(Known(cs), key, 0);
    AtMostTwiceTheLimitLessOne(TimesOf(Known(cs), key), limit, window, lo);
  }

  /** A command goes ahead exactly when both stores, each seeing only its own keys, let it. */
  lemma {:induction false} CommandNeedsBoth(users: Windows, guilds: Windows, cs: seq<Command>, tenSeconds: nat, i: nat)
    requires i < |cs|
    ensures CommandAnswers(users, guilds, cs, tenSeconds)[i]
        <==> ChargeAnswers(users, UserCharges(cs), USER_LIMIT, tenSeconds)[i]
             && ChargeAnswers(guilds, GuildCharges(cs), GUILD_LIMIT, tenSeconds)[i]
    decreases cs
  {
    if i > 0 {
      CommandNeedsBoth(UserOk(users, cs[0].user, tenSeconds, cs[0].now).0,
                       GuildOk(guilds, cs[0].guild, tenSeconds, cs[0].later).0, cs[1..], tenSeconds, i - 1);
      assert UserCharges(cs)[1..] == UserCharges(cs[1..]) && GuildCharges(cs)[1..] == GuildCharges(cs[1..]);
    }
  }

  lemma {:induction false} FewerYesesAllowLess(
      cs: seq<Charge>, fewer: seq<bool>, more: seq<bool>, key: string, lo: int, hi: int)
    requires |cs| == |fewer| == |more| && forall i :: 0 <= i < |cs| && fewer[i] ==> more[i]
    ensures Allowed(cs, fewer, key, lo, hi) <= Allowed(cs, more, key, lo, hi)
  {
    if cs != [] {
      FewerYesesAllowLess(cs[1..], fewer[1..], more[1..], key, lo, hi);
    }
  }

  /** No ten seconds hold more than 15 commands of one user, nor more than 79 of one guild. */
  lemma CommandsAreBounded(cs: seq<Command>, user: string, guild: string, tenSeconds: nat, lo: int)
    requires ChargesInOrder(UserCharges(cs), 0) && ChargesInOrder(GuildCharges(cs), 0)
    ensures Allowed(UserCharges(cs), CommandAnswers(map[], map[], cs, tenSeconds), user, lo, lo + tenSeconds) <= 15
    ensures Allowed(GuildCharges(cs), CommandAnswers(map[], map[], cs, tenSeconds), guild, lo, lo + tenSeconds) <= 79
  {
    var both := CommandAnswers(map[], map[], cs, tenSeconds);
    var us := ChargeAnswers(map[], UserCharges(cs), USER_LIMIT, tenSeconds);
    var gs := ChargeAnswers(map[], GuildCharges(cs), GUILD_LIMIT, tenSeconds);
    forall i | 0 <= i < |cs| ensures both[i] ==> us[i] && gs[i] {
      CommandNeedsBoth(map[], map[], cs, tenSeconds, i);
    }
    FewerYesesAllowLess(UserCharges(cs), both, us, user, lo, lo + tenSeconds);
    ChargesAreBounded(UserCharges(cs), user, USER_LIMIT, tenSeconds, lo);
    FewerYesesAllowLess(GuildCharges(cs), both, gs, guild, lo, lo + tenSeconds);
    ChargesAreBounded(GuildCharges(cs), guild, GUILD_LIMIT, tenSeconds, lo);
  }
}

/** The cooldown between image commands of one user. */
module ImageCooldown {
  import opened Basics

  const COOLDOWN_MS: int := 10 * 1000

  /** When each user may next ask, in milliseconds. */
  type Cooldowns = map<string, int>

  datatype Answer = Granted | Wait(seconds: int)

  function Pending(cs: Cooldowns, now: int): Cooldowns {
    map user | user in cs && cs[user] > now :: cs[user]
  }

  function Claimed(cs: Cooldowns, user: string, now: int): (Cooldowns, Answer) {
    if user in cs && cs[user] > now then (Pending(cs, now), Wait((cs[user] - now + 999) / 1000))
    else (Pending(cs, now)[user := now + COOLDOWN_MS], Granted)
  }

  class CooldownStore {
    var cooldowns: Cooldowns

    constructor ()
      ensures cooldowns == map[]
    {
      cooldowns := map[];
    }

    method Claim(user: string, now: int) returns (answer: Answer)
      modifies this
      ensures (cooldowns, answer) == Claimed(old(cooldowns), user, now)
    {
      cooldowns := Pending(cooldowns, now);
      if user in cooldowns && cooldowns[user] > now {
        var remaining := (cooldowns[user] - now + 999) / 1000;
        return Wait(remaining);
      }
      cooldowns := cooldowns[user := now + COOLDOWN_MS];
      return Granted;
    }
  }

  // ----- runs -----

  datatype Request = Request(user: string, now: int)

  function After(rs: seq<Request>): Cooldowns {
    if rs == [] then map[]
    else
      var last := rs[|rs| - 1];
      Claimed(After(rs[..|rs| - 1]), last.user, last.now).0
  }

  /** The answer to claim `i` of a run that starts with an empty store. */
  function AnswerAt(rs: seq<Request>, i: nat): Answer
    requires i < |rs|
  {
    Claimed(After(rs[..i]), rs[i].user, rs[i].now).1
  }

  predicate InOrder(rs: seq<Request>) {
    forall i, j :: 0 <= i <= j < |rs| ==> rs[i].now <= rs[j].now
  }

  /** When the user was last granted an image. */
  function LastGrant(rs: seq<Request>, user: string): Option<int> {
    if rs == [] then None
    else if rs[|rs| - 1].user == user && AnswerAt(rs, |rs| - 1).Granted? then Some(rs[|rs| - 1].now)
    else LastGrant(rs[..|rs| - 1], user)
  }

  lemma {:induction false} StoreHoldsLastGrant(rs: seq<Request>, user: string)
    requires InOrder(rs)
    ensures if user in After(rs) then LastGrant(rs, user) == Some(After(rs)[user] - COOLDOWN_MS)
            else LastGrant(rs, user).Some? ==> rs != [] && LastGrant(rs, user).value + COOLDOWN_MS <= rs[|rs| - 1].now
  {
    if rs != [] {
      StoreHoldsLastGrant(rs[..|rs| - 1], user);
    }
  }

  lemma {:induction false} LastGrantIsAGrant(rs: seq<Request>, user: string, i: nat)
    requires InOrder(rs) && i < |rs| && rs[i].user == user && AnswerAt(rs, i).Granted?
    ensures LastGrant(rs, user).Some? && LastGrant(rs, user).value >= rs[i].now
  {
    var front := rs[..|rs| - 1];
    if i < |front| {
      assert front[..i] == rs[..i];
      LastGrantIsAGrant(front, user, i);
    }
  }

  lemma {:induction false} LastGrantHappened(rs: seq<Request>, user: string) returns (i: nat)
    requires LastGrant(rs, user).Some?
    ensures i < |rs| && rs[i].user == user && AnswerAt(rs, i).Granted? && LastGrant(rs, user) == Some(rs[i].now)
  {
    var front := rs[..|rs| - 1];
    if rs[|rs| - 1].user == user && AnswerAt(rs, |rs| - 1).Granted? {
      i := |rs| - 1;
    } else {
      i := LastGrantHappened(front, user);
      assert front[..i] == rs[..i];
    }
  }

  /** After a claim the store holds only users who must still wait, each with the time named to them. */
  lemma ClaimsForgetPastCooldowns(cs: Cooldowns, user: string, now: int)
    ensures var after := Claimed(cs, user, now).0;
            && user in after
            && (forall u :: u in after ==> after[u] > now)
            && (forall u :: u in cs && cs[u] > now ==> u in after && after[u] == cs[u])
            && (forall u :: u in after && u != user ==> u in cs && after[u] == cs[u])
  {
  }

  predicate RecentGrant(rs: seq<Request>, i: nat, j: nat)
    requires i < |rs| && j < |rs|
  {
    rs[i].user == rs[j].user && AnswerAt(rs, i).Granted? && rs[j].now - rs[i].now < 10_000
  }

  /**
   An image is granted exactly when the same user was granted none in the last 10,000 ms; other users
   and dropped entries never matter.  So two grants to one user are at least 10,000 ms apart.
  */
  lemma GrantedExactlyWhenCool(rs: seq<Request>, j: nat)
    requires InOrder(rs) && j < |rs|
    ensures AnswerAt(rs, j).Granted? <==> forall i :: 0 <= i < j ==> !RecentGrant(rs, i, j)
  {
    var before := rs[..j];
    StoreHoldsLastGrant(before, rs[j].user);
    if AnswerAt(rs, j).Granted? {
      forall i | 0 <= i < j ensures !RecentGrant(rs, i, j) {
        assert before[..i] == rs[..i];
        if rs[i].user == rs[j].user && AnswerAt(rs, i).Granted? {
          LastGrantIsAGrant(before, rs[j].user, i);
        }
      }
    } else {
      var i := LastGrantHappened(before, rs[j].user);
      assert before[..i] == rs[..i];
      assert RecentGrant(rs, i, j);
    }
  }

  /**
   The wait a refusal names is from 1 to 10 seconds, is long enough if the user's next claim keeps it,
   and no shorter whole number of seconds is.
  */
  lemma NamedWaitIsExact(cs: Cooldowns, user: string, now: int, later: int)
    requires Claimed(cs, user, now).1.Wait? && now <= later
    ensures var seconds := Claimed(cs, user, now).1.seconds;
            && 1 <= seconds && (cs[user] <= now + 10_000 ==> seconds <= 10)
            && (later >= now + 1000 * seconds ==> Claimed(Claimed(cs, user, now).0, user, later).1.Granted?)
            && (later <= now + 1000 * (seconds - 1) ==> Claimed(Claimed(cs, user, now).0, user, later).1.Wait?)
  {
  }

  /** The user was granted nothing strictly between claims `i` and `j`. */
  predicate NothingGrantedBetween(rs: seq<Request>, i: nat, j: nat)
    requires i < j < |rs|
  {
    forall k :: i < k < j && rs[k].user == rs[i].user ==> !AnswerAt(rs, k).Granted?
  }

  lemma {:induction false} LastGrantStands(rs: seq<Request>, i: nat, j: nat)
    requires i < j < |rs| && NothingGrantedBetween(rs, i, j) && AnswerAt(rs, i).Wait?
    ensures LastGrant(rs[..j], rs[i].user) == LastGrant(rs[..i], rs[i].user)
    decreases j
  {
    assert rs[..j][..j - 1] == rs[..j - 1];
    if j == i + 1 {
      assert !AnswerAt(rs, i).Granted?;
    } else {
      assert rs[j - 1].user == rs[i].user ==> !AnswerAt(rs, j - 1).Granted?;
      LastGrantStands(rs, i, j - 1);
    }
  }

  /**
   Refused retries never move the end of a wait: it is fixed by the last grant, however often the user
   asks in vain, and the seconds named by any refusal reach it but not a whole second further.
  */
  lemma RetriesNeverLengthenTheWait(rs: seq<Request>, i: nat, j: nat)
    requires InOrder(rs) && i < j < |rs| && rs[i].user == rs[j].user && AnswerAt(rs, i).Wait?
    requires NothingGrantedBetween(rs, i, j)
    ensures LastGrant(rs[..i], rs[i].user).Some?
    ensures var end := LastGrant(rs[..i], rs[i].user).value + 10_000;
            && (AnswerAt(rs, j).Granted? <==> rs[j].now >= end)
            && rs[i].now + 1000 * (AnswerAt(rs, i).seconds - 1) < end <= rs[i].now + 1000 * AnswerAt(rs, i).seconds
  {
    StoreHoldsLastGrant(rs[..i], rs[i].user);
    StoreHoldsLastGrant(rs[..j], rs[i].user);
    LastGrantStands(rs, i, j);
  }

  /** In a run, waiting the named seconds suffices, whatever other users do and however often it is retried. */
  lemma WaitingSuffices(rs: seq<Request>, i: nat, j: nat)
    requires InOrder(rs) && i < j < |rs| && rs[i].user == rs[j].user && AnswerAt(rs, i).Wait?
    requires NothingGrantedBetween(rs, i, j)
    requires rs[j].now >= rs[i].now + 1000 * AnswerAt(rs, i).seconds
    ensures AnswerAt(rs, j).Granted? && AnswerAt(rs, i).seconds <= 10
  {
    RetriesNeverLengthenTheWait(rs, i, j);
    LastGrantHappenedBefore(rs, i);
  }

  lemma LastGrantHappenedBefore(rs: seq<Request>, i: nat)
    requires InOrder(rs) && i < |rs| && LastGrant(rs[..i], rs[i].user).Some?
    ensures LastGrant(rs[..i], rs[i].user).value <= rs[i].now
  {
    var k := LastGrantHappened(rs[..i], rs[i].user);
  }
}
