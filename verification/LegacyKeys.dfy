/**
 The keys the Node service gives loadouts.  They are spelled as in the Rust service, with the same
 ambiguity; the ids are texts that are always there, and an empty time counts as none.
*/
module LegacyKeys {
  import opened Basics
  import opened Strings
  import opened LegacyService
  import C = RenderCache
  import Q = EventQueue
  import RS = RenderService
  import RT = RenderServiceTheorems

  datatype LoadoutIds = LoadoutIds(playerId: string, loadoutId: string, updatedAt: string, fetchedAt: string) {
    function Stamp(): string {
      if updatedAt != "" then updatedAt else fetchedAt
    }

    function VersionText(): string {
      if Stamp() != "" then Stamp() else "unknown"
    }

    function Key(version: string): string {
      "loadout:" + playerId + ":" + loadoutId + ":" + VersionText() + ":v" + version
    }

    /** It has a time, and no colon in its ids. */
    predicate Named() {
      Stamp() != "" && Lacks(playerId, ':') && Lacks(loadoutId, ':')
    }

    /** The same loadout as a record of the Rust service. */
    function AsRecord(): RS.Record {
      RS.Loadout(Some(playerId), Some(loadoutId), if Stamp() != "" then Some(Stamp()) else None, None, [])
    }
  }

  /** The same version of the same player's loadout. */
  predicate SameLoadout(a: LoadoutIds, b: LoadoutIds) {
    a == b
    || (a.Stamp() != "" && a.Stamp() == b.Stamp() && a.playerId == b.playerId && a.loadoutId == b.loadoutId)
  }

  lemma SameKeyInRust(version: string, l: LoadoutIds)
    ensures l.Key(version) == RS.CacheKey(RS.Versions("", version), l.AsRecord())
    ensures l.Named() <==> RT.Named(l.AsRecord())
  {
  }

  /** Among loadouts with a time and no colon in their ids, keys identify what is drawn. */
  lemma KeysIdentifyLoadouts(version: string, a: LoadoutIds, b: LoadoutIds)
    requires a.Named() && b.Named()
    ensures a.Key(version) == b.Key(version) <==> SameLoadout(a, b)
  {
    SameKeyInRust(version, a);
    SameKeyInRust(version, b);
    RT.KeysIdentifySubjects(RS.Versions("", version), a.AsRecord(), b.AsRecord());
  }

  lemma LastPartNotEmpty(a: string, c: string, d: string, p: string, o: string, u: string)
    requires a + ":" + (c + ":" + d) == p + ":" + (o + ":" + u) && Lacks(a, ':') && Lacks(c, ':') && u != ""
    ensures d != ""
  {
    var s := p + ":" + (o + ":" + u);
    assert s[|p|] == ':' && s[|p| + 1 + |o|] == ':';
    assert forall k :: 0 <= k < |s| - 1 - |d| && s[k] == ':' ==> k == |a|;
  }

  /** Every other loadout shares its key with one of those. */
  lemma UnnamedHasNamedDouble(version: string, l: LoadoutIds) returns (other: LoadoutIds)
    requires !l.Named()
    ensures other.Named() && other.Key(version) == l.Key(version) && !SameLoadout(other, l)
  {
    var v := RS.Versions("", version);
    SameKeyInRust(version, l);
    var double := RT.UnnamedHasNamedDouble(v, l.AsRecord());
    RS.LoadoutKeyInside(v, l.AsRecord());
    RS.LoadoutKeyInside(v, double);
    LastPartNotEmpty(double.PlayerText(), double.LoadoutText(), double.VersionText(),
                     l.playerId, l.loadoutId, l.VersionText());
    other := LoadoutIds(double.PlayerText(), double.LoadoutText(), double.VersionText(), "");
    SameKeyInRust(version, other);
  }

  /** Two calls under one key, the second while the first one's job is under way. */
  lemma SameKeySharesAJob(lim: C.Limits, cfg: Q.Config, key: string, first: Record, second: Record, now: int)
    requires cfg.maxQueued >= 1
    ensures var acts := [Direct(key, first, now), Direct(key, second, now)];
            && ValidRun(Init(lim, cfg), acts)
            && var s := Exec(Init(lim, cfg), acts);
               s.calls == [Call(key, OnJob(0)), Call(key, OnJob(0))] && |s.works| == 1 && s.works[0].record == first
  {
    var s0 := Init(lim, cfg);
    var one, two := Direct(key, first, now), Direct(key, second, now);
    var s1 := Next(s0, one);
    assert s1.calls == [Call(key, OnJob(0))] && |s1.works| == 1 && s1.works[0].record == first;
    assert s1.q.sh.inFlight == map[key := 0] && s1.cache.entries == [];
    var s2 := Next(s1, two);
    assert s2.calls == s1.calls + [Call(key, OnJob(0))] && s2.works == s1.works;
    assert [one, two][1..] == [two] && [two][1..] == [];
    assert Exec(s0, [one, two]) == Exec(s1, [two]) == Exec(s2, []) == s2;
  }

  /**
   A loadout without a time, or with a colon in its ids, shares a job with another loadout, whose record
   then draws the image for both.
  */
  lemma AmbiguousLoadoutSharesAJob(
      lim: C.Limits, cfg: Q.Config, version: string, l: LoadoutIds, first: Record, second: Record, now: int)
    returns (other: LoadoutIds)
    requires cfg.maxQueued >= 1 && !l.Named()
    ensures other.Named() && !SameLoadout(other, l)
    ensures var acts := [Direct(other.Key(version), first, now), Direct(l.Key(version), second, now)];
            && ValidRun(Init(lim, cfg), acts)
            && var s := Exec(Init(lim, cfg), acts);
               |s.calls| == 2 && s.calls[1].answer == OnJob(0) && |s.works| == 1 && s.works[0].record == first
  {
    other := UnnamedHasNamedDouble(version, l);
    SameKeySharesAJob(lim, cfg, l.Key(version), first, second, now);
  }

  /** The update time counts, or else the fetch time, or else the word `unknown`. */
  lemma TimesInKeys(version: string, player: string, loadout: string, time: string, other: string)
    requires time != ""
    ensures LoadoutIds(player, loadout, time, other).Key(version)
         == LoadoutIds(player, loadout, "", time).Key(version)
         == "loadout:" + player + ":" + loadout + ":" + time + ":v" + version
    ensures LoadoutIds(player, loadout, "", "").Key(version)
         == "loadout:" + player + ":" + loadout + ":" + "unknown" + ":v" + version
  {
  }
}
