/**
 The table of card descriptions, with cards that share a name but not a text left out.

 `key` and `text` stand for the normalization of a card's name and the trimming of its description;
 a name or description the data lacks reads as empty.
*/
module CardDescriptions {
  datatype Card = Card(name: string, description: string)

  datatype Reading = Reading(key: string -> string, text: string -> string)

  type Table = map<string, string>

  /** This card says its key's description is `d`. */
  predicate Says(c: Card, k: string, d: string, rd: Reading) {
    k != "" && d != "" && rd.key(c.name) == k && rd.text(c.description) == d
  }

  predicate Said(cs: seq<Card>, k: string, d: string, rd: Reading) {
    exists i :: 0 <= i < |cs| && Says(cs[i], k, d, rd)
  }

  /** Some card describes `k`, and every card that does says `d`. */
  ghost predicate Agreed(cs: seq<Card>, k: string, d: string, rd: Reading) {
    Said(cs, k, d, rd) && forall e :: Said(cs, k, e, rd) ==> e == d
  }

  ghost predicate Disputed(cs: seq<Card>, k: string, rd: Reading) {
    exists d, e :: d != e && Said(cs, k, d, rd) && Said(cs, k, e, rd)
  }

  ghost predicate IsTable(cs: seq<Card>, t: Table, rd: Reading) {
    forall k, d :: (k in t && t[k] == d) <==> Agreed(cs, k, d, rd)
  }

  function Flatten(css: seq<seq<Card>>): seq<Card> {
    if css == [] then [] else Flatten(css[..|css| - 1]) + css[|css| - 1]
  }

  /** What the loop keeps: agreed keys in the table, disputed ones in the set. */
  ghost predicate Tabulates(cs: seq<Card>, t: Table, ambiguous: set<string>, rd: Reading) {
    && (forall k :: k in t ==> Agreed(cs, k, t[k], rd))
    && (forall k :: k in ambiguous ==> Disputed(cs, k, rd))
    && (forall k, d :: Said(cs, k, d, rd) ==> k in t || k in ambiguous)
  }

  lemma SaidAppend(cs: seq<Card>, c: Card, rd: Reading)
    ensures forall k, d :: Said(cs + [c], k, d, rd) <==> Said(cs, k, d, rd) || Says(c, k, d, rd)
  {
    forall k, d ensures Said(cs + [c], k, d, rd) <==> Said(cs, k, d, rd) || Says(c, k, d, rd) {
      if i :| 0 <= i < |cs| && Says(cs[i], k, d, rd) {
        assert (cs + [c])[i] == cs[i];
      }
      if Says(c, k, d, rd) {
        assert (cs + [c])[|cs|] == c;
      }
    }
  }

  lemma AgreedIsUndisputed(cs: seq<Card>, rd: Reading)
    ensures forall k, d :: Agreed(cs, k, d, rd) ==> !Disputed(cs, k, rd)
  {
  }

  lemma TabulatesMeansTable(cs: seq<Card>, t: Table, ambiguous: set<string>, rd: Reading)
    requires Tabulates(cs, t, ambiguous, rd)
    ensures IsTable(cs, t, rd)
  {
    AgreedIsUndisputed(cs, rd);
  }

  /**
   The loop over champions and their cards.  A key maps to `d` exactly when some card with that key
   has the description `d` and no card with that key has another.
  */
  method LoadChampionCardDescriptions(champions: seq<seq<Card>>, rd: Reading) returns (descriptions: Table)
    ensures IsTable(Flatten(champions), descriptions, rd)
  {
    descriptions := map[];
    var ambiguous: set<string> := {};
    ghost var seen: seq<Card> := [];
    for i := 0 to |champions|
      invariant seen == Flatten(champions[..i])
      invariant Tabulates(seen, descriptions, ambiguous, rd)
    {
      var loadouts := champions[i];
      assert champions[..i + 1][..i] == champions[..i];
      for j := 0 to |loadouts|
        invariant seen == Flatten(champions[..i]) + loadouts[..j]
        invariant Tabulates(seen, descriptions, ambiguous, rd)
      {
        assert loadouts[..j + 1] == loadouts[..j] + [loadouts[j]];
        SaidAppend(seen, loadouts[j], rd);
        ghost var before := seen;
        seen := seen + [loadouts[j]];
        var key := rd.key(loadouts[j].name);
        var description := rd.text(loadouts[j].description);
        if key == "" || description == "" || key in ambiguous {
          Undisturbed(before, loadouts[j], descriptions, ambiguous, rd);
          continue;
        }
        if key in descriptions && descriptions[key] != description {
          NewDispute(before, loadouts[j], descriptions, ambiguous, rd);
          descriptions := descriptions - {key};
          ambiguous := ambiguous + {key};
        } else {
          NewAgreement(before, loadouts[j], descriptions, ambiguous, rd);
          descriptions := descriptions[key := description];
        }
      }
      assert loadouts[..|loadouts|] == loadouts;
    }
    assert champions[..|champions|] == champions;
    TabulatesMeansTable(seen, descriptions, ambiguous, rd);
  }

  lemma DisputesStay(cs: seq<Card>, c: Card, k: string, rd: Reading)
    requires Disputed(cs, k, rd)
    ensures Disputed(cs + [c], k, rd)
  {
    SaidAppend(cs, c, rd);
    var d, e :| d != e && Said(cs, k, d, rd) && Said(cs, k, e, rd);
    assert Said(cs + [c], k, d, rd) && Said(cs + [c], k, e, rd);
  }

  lemma OtherKeysKeep(cs: seq<Card>, c: Card, t: Table, ambiguous: set<string>, rd: Reading)
    requires Tabulates(cs, t, ambiguous, rd)
    ensures forall k :: k in t && k != rd.key(c.name) ==> Agreed(cs + [c], k, t[k], rd)
    ensures forall k :: k in ambiguous ==> Disputed(cs + [c], k, rd)
  {
    SaidAppend(cs, c, rd);
    forall k | k in ambiguous ensures Disputed(cs + [c], k, rd) {
      DisputesStay(cs, c, k, rd);
    }
  }

  lemma Undisturbed(cs: seq<Card>, c: Card, t: Table, ambiguous: set<string>, rd: Reading)
    requires Tabulates(cs, t, ambiguous, rd)
    requires rd.key(c.name) == "" || rd.text(c.description) == "" || rd.key(c.name) in ambiguous
    ensures Tabulates(cs + [c], t, ambiguous, rd)
  {
    SaidAppend(cs, c, rd);
    OtherKeysKeep(cs, c, t, ambiguous, rd);
    AgreedIsUndisputed(cs, rd);
  }

  lemma NewDispute(cs: seq<Card>, c: Card, t: Table, ambiguous: set<string>, rd: Reading)
    requires Tabulates(cs, t, ambiguous, rd)
    requires rd.key(c.name) in t && Says(c, rd.key(c.name), rd.text(c.description), rd)
    requires t[rd.key(c.name)] != rd.text(c.description)
    ensures Tabulates(cs + [c], t - {rd.key(c.name)}, ambiguous + {rd.key(c.name)}, rd)
  {
    SaidAppend(cs, c, rd);
    OtherKeysKeep(cs, c, t, ambiguous, rd);
    var k := rd.key(c.name);
    assert Said(cs + [c], k, t[k], rd) && Said(cs + [c], k, rd.text(c.description), rd);
    assert Disputed(cs + [c], k, rd);
  }

  lemma NewAgreement(cs: seq<Card>, c: Card, t: Table, ambiguous: set<string>, rd: Reading)
    requires Tabulates(cs, t, ambiguous, rd)
    requires rd.key(c.name) !in ambiguous && Says(c, rd.key(c.name), rd.text(c.description), rd)
    requires rd.key(c.name) in t ==> t[rd.key(c.name)] == rd.text(c.description)
    ensures Tabulates(cs + [c], t[rd.key(c.name) := rd.text(c.description)], ambiguous, rd)
  {
    SaidAppend(cs, c, rd);
    OtherKeysKeep(cs, c, t, ambiguous, rd);
    var k := rd.key(c.name);
    assert Said(cs + [c], k, rd.text(c.description), rd);
  }

  /** Cards in any order, grouped under champions in any way, give the same table. */
  lemma OrderIsIrrelevant(some: seq<Card>, others: seq<Card>, t: Table, u: Table, rd: Reading)
    requires multiset(some) == multiset(others)
    requires IsTable(some, t, rd) && IsTable(others, u, rd)
    ensures t == u
  {
    SaidByTheSame(some, others, rd);
    SaidByTheSame(others, some, rd);
    forall k, d ensures Agreed(some, k, d, rd) <==> Agreed(others, k, d, rd) {
    }
    assert forall k :: k in t ==> Agreed(some, k, t[k], rd);
    assert forall k :: k in u ==> Agreed(others, k, u[k], rd);
    assert forall k :: k in t ==> k in u && u[k] == t[k];
    assert forall k :: k in u ==> k in t;
  }

  lemma SaidByTheSame(some: seq<Card>, others: seq<Card>, rd: Reading)
    requires multiset(some) == multiset(others)
    ensures forall k, d :: Said(some, k, d, rd) ==> Said(others, k, d, rd)
  {
    forall k, d | Said(some, k, d, rd) ensures Said(others, k, d, rd) {
      var i :| 0 <= i < |some| && Says(some[i], k, d, rd);
      assert some[i] in multiset(others);
      var j :| 0 <= j < |others| && others[j] == some[i];
    }
  }

  /** Neither is empty, some card has both, and no card of the key has another text that is not empty. */
  predicate GoTogether(cs: seq<Card>, k: string, d: string, rd: Reading) {
    && k != "" && d != ""
    && (exists i :: 0 <= i < |cs| && rd.key(cs[i].name) == k && rd.text(cs[i].description) == d)
    && (forall i :: 0 <= i < |cs| && rd.key(cs[i].name) == k ==>
          rd.text(cs[i].description) == d || rd.text(cs[i].description) == "")
  }

  /** The table spelled out: a key and a text stand in it exactly when they go together so. */
  lemma TableSpelledOut(cs: seq<Card>, t: Table, k: string, d: string, rd: Reading)
    requires IsTable(cs, t, rd)
    ensures (k in t && t[k] == d) <==> GoTogether(cs, k, d, rd)
  {
    if GoTogether(cs, k, d, rd) {
      var i :| 0 <= i < |cs| && rd.key(cs[i].name) == k && rd.text(cs[i].description) == d;
      assert Says(cs[i], k, d, rd);
      forall e | Said(cs, k, e, rd) ensures e == d {
        var j :| 0 <= j < |cs| && Says(cs[j], k, e, rd);
      }
      assert Agreed(cs, k, d, rd);
    }
    if k in t && t[k] == d {
      assert Agreed(cs, k, d, rd);
      var i :| 0 <= i < |cs| && Says(cs[i], k, d, rd);
      forall j | 0 <= j < |cs| && rd.key(cs[j].name) == k
        ensures rd.text(cs[j].description) == d || rd.text(cs[j].description) == ""
      {
        if rd.text(cs[j].description) != "" {
          assert Says(cs[j], k, rd.text(cs[j].description), rd);
          assert Said(cs, k, rd.text(cs[j].description), rd);
        }
      }
    }
  }
}
