/** When a command is turned away: only when its user or its guild has used up its share. */
module CommandRefusals {
  import opened Basics
  import opened RateLimits

  lemma {:induction false} ChargeAnswersOfPrefix(ws: Windows, cs: seq<Charge>, i: nat, limit: nat, window: nat)
    requires i <= |cs|
    ensures ChargeAnswers(ws, cs[..i], limit, window) == ChargeAnswers(ws, cs, limit, window)[..i]
    decreases cs
  {
    if i > 0 {
      var next := ClaimIfKnown(ws, cs[0].key, limit, window, cs[0].now).0;
      ChargeAnswersOfPrefix(next, cs[1..], i - 1, limit, window);
      assert cs[..i][0] == cs[0] && cs[..i][1..] == cs[1..][..i - 1];
    }
  }

  lemma {:induction false} KnownAppend(cs: seq<Charge>, key: string, now: nat)
    ensures Known(cs + [Charge(Some(key), now)]) == Known(cs) + [Request(key, now)]
  {
    var c := Charge(Some(key), now);
    if cs == [] {
      assert (cs + [c])[1..] == [];
    } else {
      assert (cs + [c])[0] == cs[0] && (cs + [c])[1..] == cs[1..] + [c];
      KnownAppend(cs[1..], key, now);
      var first := if cs[0].key.Some? then [Request(cs[0].key.value, cs[0].now)] else [];
      assert Known(cs) == first + Known(cs[1..]);
      assert first + (Known(cs[1..]) + [Request(key, now)]) == first + Known(cs[1..]) + [Request(key, now)];
    }
  }

  lemma {:induction false} TimesAppend(rs: seq<Request>, r: Request)
    ensures TimesOf(rs + [r], r.key) == TimesOf(rs, r.key) + [r.now]
  {
    if rs == [] {
      assert (rs + [r])[1..] == [];
    } else {
      assert (rs + [r])[1..] == rs[1..] + [r];
      TimesAppend(rs[1..], r);
    }
  }

  /** The answers to one more claim of a key: those before it, and then the store's answer to it. */
  lemma {:induction false} AnswersAppend(ws: Windows, rs: seq<Request>, r: Request, limit: nat, window: nat)
    ensures var answers, more := Answers(ws, rs, limit, window), Answers(ws, rs + [r], limit, window);
            AnswersOf(rs + [r], more, r.key) == AnswersOf(rs, answers, r.key) + [more[|rs|]]
    decreases rs
  {
    var more := Answers(ws, rs + [r], limit, window);
    if rs == [] {
      assert (rs + [r])[1..] == [] && more[1..] == [];
    } else {
      var next := ClaimStep(ws, rs[0].key, limit, window, rs[0].now).0;
      assert (rs + [r])[1..] == rs[1..] + [r];
      assert more[1..] == Answers(next, rs[1..] + [r], limit, window);
      assert Answers(ws, rs, limit, window)[1..] == Answers(next, rs[1..], limit, window);
      AnswersAppend(next, rs[1..], r, limit, window);
    }
  }

  lemma {:induction false} LastAnswerIsTheStores(
      ws: Windows, cs: seq<Charge>, key: string, now: nat, limit: nat, window: nat)
    ensures ChargeAnswers(ws, cs + [Charge(Some(key), now)], limit, window)[|cs|]
         == Answers(ws, Known(cs) + [Request(key, now)], limit, window)[|Known(cs)|]
    decreases cs
  {
    var c, r := Charge(Some(key), now), Request(key, now);
    if cs == [] {
      assert (cs + [c])[0] == c && (cs + [c])[1..] == [] && Known(cs) + [r] == [r];
    } else {
      assert (cs + [c])[0] == cs[0] && (cs + [c])[1..] == cs[1..] + [c];
      var next := ClaimIfKnown(ws, cs[0].key, limit, window, cs[0].now).0;
      LastAnswerIsTheStores(next, cs[1..], key, now, limit, window);
      if cs[0].key.Some? {
        assert (Known(cs) + [r])[1..] == Known(cs[1..]) + [r];
      } else {
        assert Known(cs) == Known(cs[1..]);
      }
    }
  }

  lemma {:induction false} NoKeyIsLetThrough(ws: Windows, cs: seq<Charge>, i: nat, limit: nat, window: nat)
    requires i < |cs| && cs[i].key.None?
    ensures ChargeAnswers(ws, cs, limit, window)[i]
    decreases cs
  {
    if i > 0 {
      NoKeyIsLetThrough(ClaimIfKnown(ws, cs[0].key, limit, window, cs[0].now).0, cs[1..], i - 1, limit, window);
    }
  }

  lemma {:induction false} PrefixInOrder(cs: seq<Charge>, i: nat, after: nat)
    requires i <= |cs| && ChargesInOrder(cs, after)
    ensures ChargesInOrder(cs[..i], after)
  {
    if i > 0 {
      PrefixInOrder(cs[1..], i - 1, cs[0].now);
      assert cs[..i][1..] == cs[1..][..i - 1];
    }
  }

  /** The last of a run of charges is refused only after as many grants to its key within the window. */
  lemma LastRefusedOnlyWhenFull(cs: seq<Charge>, key: string, now: nat, limit: nat, window: nat)
    requires limit >= 1 && ChargesInOrder(cs + [Charge(Some(key), now)], 0)
    requires !ChargeAnswers(map[], cs + [Charge(Some(key), now)], limit, window)[|cs|]
    ensures Allowed(cs, ChargeAnswers(map[], cs, limit, window), key, now - window + 1, now + 1) >= limit
  {
    var all := cs + [Charge(Some(key), now)];
    var rs, r := Known(cs), Request(key, now);
    KnownAppend(cs, key, now);
    KnownInOrder(all, 0);
    LastAnswerIsTheStores(map[], cs, key, now, limit, window);
    AnswersAppend(map[], rs, r, limit, window);
    TimesAppend(rs, r);
    TimesInOrder(rs + [r], key, 0);
    KeysAreIndependent(rs + [r], key, limit, window);
    var ts := TimesOf(rs, key);
    var yes := AnswersOf(rs, Answers(map[], rs, limit, window), key);
    AllowedIsGranted(map[], cs, key, limit, window, now - window + 1, now + 1);
    assert (ts + [now])[..|ts|] == ts && (yes + [false])[..|ts|] == yes;
    RefusedOnlyWhenFull(ts + [now], |ts|, limit, window);
  }

  /** A charge is refused only if it has a key, and that key was let through `limit` times in the window. */
  lemma ChargeRefusedOnlyWhenFull(cs: seq<Charge>, i: nat, limit: nat, window: nat)
    requires limit >= 1 && ChargesInOrder(cs, 0) && i < |cs| && !ChargeAnswers(map[], cs, limit, window)[i]
    ensures cs[i].key.Some?
    ensures Allowed(cs[..i], ChargeAnswers(map[], cs[..i], limit, window), cs[i].key.value,
                    cs[i].now - window + 1, cs[i].now + 1) >= limit
  {
    if cs[i].key.None? {
      NoKeyIsLetThrough(map[], cs, i, limit, window);
    } else {
      assert cs[..i + 1] == cs[..i] + [Charge(Some(cs[i].key.value), cs[i].now)];
      PrefixInOrder(cs, i + 1, 0);
      ChargeAnswersOfPrefix(map[], cs, i + 1, limit, window);
      LastRefusedOnlyWhenFull(cs[..i], cs[i].key.value, cs[i].now, limit, window);
    }
  }

  /** The user's store let `key` through this often in the window that ends with command `i`. */
  function UserShare(cs: seq<Command>, i: nat, key: string, tenSeconds: nat): nat
    requires i < |cs|
  {
    var charges := UserCharges(cs);
    Allowed(charges[..i], ChargeAnswers(map[], charges[..i], USER_LIMIT, tenSeconds), key,
            charges[i].now - tenSeconds + 1, charges[i].now + 1)
  }

  function GuildShare(cs: seq<Command>, i: nat, key: string, tenSeconds: nat): nat
    requires i < |cs|
  {
    var charges := GuildCharges(cs);
    Allowed(charges[..i], ChargeAnswers(map[], charges[..i], GUILD_LIMIT, tenSeconds), key,
            charges[i].now - tenSeconds + 1, charges[i].now + 1)
  }

  lemma {:induction false} ChargesOfCommand(cs: seq<Command>, i: nat)
    requires i < |cs|
    ensures UserCharges(cs)[i] == Charge(cs[i].user, cs[i].now)
    ensures GuildCharges(cs)[i] == Charge(cs[i].guild, cs[i].later)
  {
    if i > 0 {
      ChargesOfCommand(cs[1..], i - 1);
    }
  }

  /**
   A command is turned away only if its user was let through 8 times within ten seconds, or its guild 40
   times; what is unknown is never held against it.
  */
  lemma CommandRefusedOnlyWhenFull(cs: seq<Command>, i: nat, tenSeconds: nat)
    requires ChargesInOrder(UserCharges(cs), 0) && ChargesInOrder(GuildCharges(cs), 0)
    requires i < |cs| && !CommandAnswers(map[], map[], cs, tenSeconds)[i]
    ensures (cs[i].user.Some? && UserShare(cs, i, cs[i].user.value, tenSeconds) >= 8)
         || (cs[i].guild.Some? && GuildShare(cs, i, cs[i].guild.value, tenSeconds) >= 40)
  {
    CommandNeedsBoth(map[], map[], cs, tenSeconds, i);
    ChargesOfCommand(cs, i);
    if !ChargeAnswers(map[], UserCharges(cs), USER_LIMIT, tenSeconds)[i] {
      ChargeRefusedOnlyWhenFull(UserCharges(cs), i, USER_LIMIT, tenSeconds);
    } else {
      ChargeRefusedOnlyWhenFull(GuildCharges(cs), i, GUILD_LIMIT, tenSeconds);
    }
  }
}
