/**
 Ranking champion names for an autocomplete query.

 Here a character folds to what is left of it after compatibility decomposition, lower-casing and
 dropping everything but ASCII letters and digits.  Every result holds for any folding.
*/
module Autocomplete {
  import opened Normalization
  import opened Strings

  const MAX_CHOICES: nat := 25
  const CHOICE_LEN: nat := 100
  const NO_MATCH: nat := 255

  // ----- scoring -----

  /** The maximal runs of word characters, with an empty run between two neighbouring separators. */
  function Split(s: string, abc: Alphabet): (parts: seq<string>)
    ensures |parts| > 0
  {
    if s == "" then [""]
    else
      var rest := Split(s[1..], abc);
      if abc.alnum(s[0]) then [[s[0]] + rest[0]] + rest[1..] else [""] + rest
  }

  predicate WordStartsWith(name: string, query: string, abc: Alphabet) {
    var parts := Split(name, abc);
    exists k :: 0 <= k < |parts| && StartsWord(parts[k], query, abc)
  }

  predicate StartsWord(part: string, query: string, abc: Alphabet) {
    var word := Norm(part, abc);
    word != "" && query <= word
  }

  function Score(name: string, query: string, abc: Alphabet): nat {
    var key := Norm(name, abc);
    if query == "" then 4
    else if key == query then 0
    else if query <= key then 1
    else if WordStartsWith(name, query, abc) then 2
    else if Contains(key, query) then 3
    else NO_MATCH
  }

  /** Every part of a split is a piece of the name. */
  lemma {:induction false} PartIsPiece(s: string, k: nat, abc: Alphabet) returns (left: string, right: string)
    requires k < |Split(s, abc)|
    ensures s == left + Split(s, abc)[k] + right && (k == 0 ==> left == "")
  {
    if s == "" {
      left, right := "", "";
    } else {
      var rest := Split(s[1..], abc);
      if abc.alnum(s[0]) {
        left, right := PartIsPiece(s[1..], k, abc);
        if k > 0 {
          left := [s[0]] + left;
        }
      } else if k == 0 {
        left, right := "", s;
      } else {
        left, right := PartIsPiece(s[1..], k - 1, abc);
        left := [s[0]] + left;
      }
    }
  }

  lemma PieceIsContained(left: string, mid: string, right: string, query: string)
    requires query <= mid
    ensures Contains(left + mid + right, query)
  {
    var whole := left + mid + right;
    assert whole[|left|..|left| + |query|] == mid[..|query|] == query;
    assert OccursAt(whole, query, |left|);
  }

  /** A name matches exactly when its normalized form contains the normalized query. */
  lemma MatchesExactlyWhenContained(name: string, query: string, abc: Alphabet)
    ensures Score(name, query, abc) != NO_MATCH <==> Contains(Norm(name, abc), query)
  {
    var key := Norm(name, abc);
    if query <= key {
      assert "" + key + "" == key;
      PieceIsContained("", key, "", query);
    }
    if WordStartsWith(name, query, abc) {
      var parts := Split(name, abc);
      var k :| 0 <= k < |parts| && StartsWord(parts[k], query, abc);
      var left, right := PartIsPiece(name, k, abc);
      NormAppend(left + parts[k], right, abc);
      NormAppend(left, parts[k], abc);
      PieceIsContained(Norm(left, abc), Norm(parts[k], abc), Norm(right, abc), query);
    }
  }

  // ----- order -----

  datatype Ranked = Ranked(score: nat, name: string)

  /** Strings by code points, which is the order of their UTF-8 bytes. */
  predicate Before(s: string, t: string) {
    t != "" && (s == "" || s[0] < t[0] || (s[0] == t[0] && Before(s[1..], t[1..])))
  }

  predicate Less(a: Ranked, b: Ranked) {
    a.score < b.score || (a.score == b.score && Before(a.name, b.name))
  }

  lemma {:induction false} BeforeIsTotal(s: string, t: string)
    ensures Before(s, t) || s == t || Before(t, s)
    ensures !(Before(s, t) && Before(t, s)) && !Before(s, s)
  {
    if s != "" {
      if t != "" && s[0] == t[0] {
        BeforeIsTotal(s[1..], t[1..]);
        assert s == [s[0]] + s[1..] && t == [t[0]] + t[1..];
      }
      BeforeIsTotal(s[1..], s[1..]);
    }
  }

  lemma {:induction false} BeforeIsTransitive(s: string, t: string, u: string)
    requires Before(s, t) && Before(t, u)
    ensures Before(s, u)
  {
    if s != "" && s[0] == t[0] == u[0] {
      BeforeIsTransitive(s[1..], t[1..], u[1..]);
    }
  }

  lemma LessIsTransitive(a: Ranked, b: Ranked, c: Ranked)
    requires Less(a, b) && Less(b, c)
    ensures Less(a, c)
  {
    if a.score == b.score == c.score {
      BeforeIsTransitive(a.name, b.name, c.name);
    }
  }

  function Elems(rs: seq<Ranked>): set<Ranked> {
    if rs == [] then {} else {rs[0]} + Elems(rs[1..])
  }

  predicate AllAbove(a: Ranked, rs: seq<Ranked>) {
    forall b :: b in Elems(rs) ==> Less(a, b)
  }

  predicate Ascending(rs: seq<Ranked>) {
    rs == [] || (AllAbove(rs[0], rs[1..]) && Ascending(rs[1..]))
  }

  function Insert(a: Ranked, rs: seq<Ranked>): seq<Ranked> {
    if rs == [] || Less(a, rs[0]) then [a] + rs else [rs[0]] + Insert(a, rs[1..])
  }

  /** The vector sort, by score and then by name. */
  function Sort(rs: seq<Ranked>): seq<Ranked> {
    if rs == [] then [] else Insert(rs[0], Sort(rs[1..]))
  }

  predicate Distinct(rs: seq<Ranked>) {
    rs == [] || (rs[0] !in Elems(rs[1..]) && Distinct(rs[1..]))
  }

  lemma {:induction false} InsertSorts(a: Ranked, rs: seq<Ranked>)
    requires Ascending(rs) && a !in Elems(rs)
    ensures Ascending(Insert(a, rs)) && Elems(Insert(a, rs)) == {a} + Elems(rs)
  {
    if rs == [] {
      assert ([a] + rs)[1..] == [];
    } else if Less(a, rs[0]) {
      assert ([a] + rs)[1..] == rs;
      forall b | b in Elems(rs) ensures Less(a, b) {
        if b != rs[0] {
          LessIsTransitive(a, rs[0], b);
        }
      }
    } else {
      InsertSorts(a, rs[1..]);
      var rest := Insert(a, rs[1..]);
      assert ([rs[0]] + rest)[1..] == rest;
      BeforeIsTotal(a.name, rs[0].name);
    }
  }

  lemma {:induction false} SortSorts(rs: seq<Ranked>)
    requires Distinct(rs)
    ensures Ascending(Sort(rs)) && Elems(Sort(rs)) == Elems(rs)
  {
    if rs != [] {
      SortSorts(rs[1..]);
      InsertSorts(rs[0], Sort(rs[1..]));
    }
  }

  lemma LessIsStrict(a: Ranked, b: Ranked)
    ensures !(Less(a, b) && Less(b, a)) && !Less(a, a)
  {
    BeforeIsTotal(a.name, b.name);
    BeforeIsTotal(a.name, a.name);
  }

  /** An ascending sequence is determined by its elements. */
  lemma {:induction false} AscendingIsUnique(rs: seq<Ranked>, ss: seq<Ranked>)
    requires Ascending(rs) && Ascending(ss) && Elems(rs) == Elems(ss)
    ensures rs == ss
  {
    if rs != [] && ss != [] {
      var a, b := rs[0], ss[0];
      LessIsStrict(a, b);
      assert a in Elems(ss) && b in Elems(rs);
      assert a == b;
      LessIsStrict(a, a);
      assert Elems(rs[1..]) == Elems(rs) - {a};
      assert Elems(ss[1..]) == Elems(ss) - {a};
      AscendingIsUnique(rs[1..], ss[1..]);
    }
  }

  // ----- the names kept -----

  /** The first name under each normalized key. */
  function FirstNames(names: seq<string>, abc: Alphabet): map<string, string> {
    if names == [] then map[]
    else
      var front := FirstNames(names[..|names| - 1], abc);
      var last := names[|names| - 1];
      var key := Norm(last, abc);
      if key in front then front else front[key := last]
  }

  predicate FirstOfItsKey(names: seq<string>, i: nat, abc: Alphabet)
    requires i < |names|
  {
    forall j :: 0 <= j < i ==> Norm(names[j], abc) != Norm(names[i], abc)
  }

  lemma {:induction false} KeyIsKept(names: seq<string>, i: nat, abc: Alphabet)
    requires i < |names|
    ensures Norm(names[i], abc) in FirstNames(names, abc)
  {
    var last := |names| - 1;
    if i < last {
      KeyIsKept(names[..last], i, abc);
    }
  }

  lemma {:induction false} KeptNameHasPosition(names: seq<string>, key: string, abc: Alphabet) returns (i: nat)
    requires key in FirstNames(names, abc)
    ensures i < |names| && FirstNames(names, abc)[key] == names[i]
    ensures Norm(names[i], abc) == key && FirstOfItsKey(names, i, abc)
  {
    var last := |names| - 1;
    if key in FirstNames(names[..last], abc) {
      i := KeptNameHasPosition(names[..last], key, abc);
    } else {
      i := last;
      forall j | 0 <= j < last ensures Norm(names[j], abc) != key {
        KeyIsKept(names[..last], j, abc);
      }
    }
  }

  /** A name is kept exactly when some occurrence of it is the first with its key. */
  lemma KeptAreFirst(names: seq<string>, name: string, abc: Alphabet)
    ensures (Norm(name, abc) in FirstNames(names, abc) && FirstNames(names, abc)[Norm(name, abc)] == name)
       <==> exists i :: 0 <= i < |names| && names[i] == name && FirstOfItsKey(names, i, abc)
  {
    var key := Norm(name, abc);
    if key in FirstNames(names, abc) {
      var k := KeptNameHasPosition(names, key, abc);
      if i :| 0 <= i < |names| && names[i] == name && FirstOfItsKey(names, i, abc) {
        assert i == k;
      }
    } else if i :| 0 <= i < |names| && names[i] == name && FirstOfItsKey(names, i, abc) {
      KeyIsKept(names, i, abc);
    }
  }

  // ----- the choices -----

  predicate IsKeptMatch(names: seq<string>, query: string, abc: Alphabet, r: Ranked) {
    var key := Norm(r.name, abc);
    var first := FirstNames(names, abc);
    && key in first && first[key] == r.name
    && r.score == Score(r.name, query, abc) && r.score != NO_MATCH
  }

  /** The ranking: every kept name that matches, in ascending order. */
  ghost predicate IsRanking(names: seq<string>, query: string, abc: Alphabet, rs: seq<Ranked>) {
    Ascending(rs) && forall r :: r in Elems(rs) <==> IsKeptMatch(names, query, abc, r)
  }

  function Capped(name: string): string {
    if |name| <= CHOICE_LEN then name else name[..CHOICE_LEN]
  }

  function Choices(rs: seq<Ranked>): (r: seq<(string, string)>)
    ensures |r| == |rs|
  {
    if rs == [] then [] else [(Capped(rs[0].name), Capped(rs[0].name))] + Choices(rs[1..])
  }

  function Best(rs: seq<Ranked>): seq<Ranked> {
    if |rs| <= MAX_CHOICES then rs else rs[..MAX_CHOICES]
  }

  lemma RankingIsUnique(names: seq<string>, query: string, abc: Alphabet, rs: seq<Ranked>, ss: seq<Ranked>)
    requires IsRanking(names, query, abc, rs) && IsRanking(names, query, abc, ss)
    ensures rs == ss
  {
    assert Elems(rs) == Elems(ss);
    AscendingIsUnique(rs, ss);
  }

  lemma {:induction false} ElemsAppend(rs: seq<Ranked>, r: Ranked)
    ensures Elems(rs + [r]) == Elems(rs) + {r}
    ensures Distinct(rs) && r !in Elems(rs) ==> Distinct(rs + [r])
  {
    if rs == [] {
      assert ([] + [r])[1..] == [];
    } else {
      assert (rs + [r])[1..] == rs[1..] + [r];
      ElemsAppend(rs[1..], r);
    }
  }

  /** Whichever order the hash map yields its values in, the choices come from the one ranking. */
  method ChampionAutocompleteChoices(names: seq<string>, text: string, abc: Alphabet)
    returns (choices: seq<(string, string)>)
    ensures exists rs :: IsRanking(names, Norm(text, abc), abc, rs) && choices == Choices(Best(rs))
    ensures forall rs :: IsRanking(names, Norm(text, abc), abc, rs) ==> choices == Choices(Best(rs))
  {
    var query := Norm(text, abc);
    var seen: map<string, string> := map[];
    for i := 0 to |names|
      invariant seen == FirstNames(names[..i], abc)
    {
      assert names[..i + 1][..i] == names[..i];
      var key := Norm(names[i], abc);
      if key !in seen {
        seen := seen[key := names[i]];
      }
    }
    assert names[..|names|] == names;
    var scored: seq<Ranked> := [];
    var left := seen.Keys;
    while left != {}
      invariant left <= seen.Keys && Distinct(scored)
      invariant forall r :: r in Elems(scored) <==>
                  IsKeptMatch(names, query, abc, r) && Norm(r.name, abc) !in left
      decreases |left|
    {
      var key :| key in left;
      left := left - {key};
      var name := seen[key];
      var position := KeptNameHasPosition(names, key, abc);
      var score := Score(name, query, abc);
      if score != NO_MATCH {
        ElemsAppend(scored, Ranked(score, name));
        scored := scored + [Ranked(score, name)];
      }
    }
    SortSorts(scored);
    var ranked := Sort(scored);
    assert IsRanking(names, query, abc, ranked);
    choices := Choices(Best(ranked));
    forall rs | IsRanking(names, query, abc, rs) ensures choices == Choices(Best(rs)) {
      RankingIsUnique(names, query, abc, rs, ranked);
    }
  }

  lemma {:induction false} ElemsSplit(rs: seq<Ranked>, n: nat)
    requires n <= |rs|
    ensures Elems(rs) == Elems(rs[..n]) + Elems(rs[n..])
    ensures Ascending(rs) ==> forall a, b :: a in Elems(rs[..n]) && b in Elems(rs[n..]) ==> Less(a, b)
  {
    if n > 0 {
      ElemsSplit(rs[1..], n - 1);
      assert rs[..n][1..] == rs[1..][..n - 1] && rs[n..] == rs[1..][n - 1..];
    } else {
      assert rs[n..] == rs;
    }
  }

  /** The best 25 are the least 25: a kept match is left out only if 25 others come before it. */
  lemma BestAreLeast(names: seq<string>, query: string, abc: Alphabet, rs: seq<Ranked>, r: Ranked)
    requires IsRanking(names, query, abc, rs) && IsKeptMatch(names, query, abc, r) && r !in Elems(Best(rs))
    ensures |Best(rs)| == 25 && AllBelow(Best(rs), r)
  {
    if |rs| > MAX_CHOICES {
      ElemsSplit(rs, MAX_CHOICES);
    }
  }

  predicate AllBelow(rs: seq<Ranked>, b: Ranked) {
    forall a :: a in Elems(rs) ==> Less(a, b)
  }

  /** Names that start with the query come before the rest, then those with a word that does. */
  lemma BetterMatchesComeFirst(names: seq<string>, query: string, abc: Alphabet, rs: seq<Ranked>, r: Ranked, q: Ranked)
    requires IsRanking(names, query, abc, rs) && query != "" && r in Elems(rs) && q in Elems(rs)
    requires !(query <= Norm(q.name, abc))
    requires query <= Norm(r.name, abc) || (WordStartsWith(r.name, query, abc) && !WordStartsWith(q.name, query, abc))
    ensures Less(r, q)
  {
    assert IsKeptMatch(names, query, abc, r) && IsKeptMatch(names, query, abc, q);
  }

  /** A name spelled like the query, however it is punctuated, is always the first choice. */
  lemma ExactMatchComesFirst(names: seq<string>, query: string, abc: Alphabet, rs: seq<Ranked>, i: nat)
    requires IsRanking(names, query, abc, rs) && query != ""
    requires i < |names| && Norm(names[i], abc) == query && FirstOfItsKey(names, i, abc)
    ensures rs != [] && rs[0] == Ranked(0, names[i])
  {
    KeptAreFirst(names, names[i], abc);
    var best := Ranked(0, names[i]);
    assert IsKeptMatch(names, query, abc, best);
    assert best in Elems(rs);
    assert IsKeptMatch(names, query, abc, rs[0]);
    BeforeIsTotal(best.name, best.name);
  }

  // ----- ties, choices and words, spelled out -----

  /** The texts agree up to `k`, where the first has ended or has the smaller character. */
  predicate Precedes(s: string, t: string, k: nat) {
    k <= |s| && k < |t| && s[..k] == t[..k] && (k == |s| || s[k] < t[k])
  }

  lemma {:induction false} BeforePrecedes(s: string, t: string) returns (k: nat)
    requires Before(s, t)
    ensures Precedes(s, t, k)
  {
    if s == "" || s[0] < t[0] {
      k := 0;
    } else {
      k := BeforePrecedes(s[1..], t[1..]);
      k := k + 1;
      assert s[..k] == [s[0]] + s[1..][..k - 1] && t[..k] == [t[0]] + t[1..][..k - 1];
    }
  }

  lemma {:induction false} MemberAt(rs: seq<Ranked>, j: nat)
    requires j < |rs|
    ensures rs[j] in Elems(rs)
  {
    if j > 0 {
      MemberAt(rs[1..], j - 1);
    }
  }

  lemma {:induction false} EarlierIsLess(rs: seq<Ranked>, i: nat, j: nat)
    requires Ascending(rs) && i < j < |rs|
    ensures Less(rs[i], rs[j])
  {
    if i == 0 {
      MemberAt(rs[1..], j - 1);
      assert rs[1..][j - 1] in Elems(rs[1..]);
    } else {
      EarlierIsLess(rs[1..], i - 1, j - 1);
    }
  }

  /** The ranking goes by score, and among equal scores in alphabetical order. */
  lemma TiesAreAlphabetical(names: seq<string>, query: string, abc: Alphabet, rs: seq<Ranked>, i: nat, j: nat)
    requires IsRanking(names, query, abc, rs) && i < j < |rs|
    ensures rs[i].score < rs[j].score
         || (rs[i].score == rs[j].score && exists k :: Precedes(rs[i].name, rs[j].name, k))
  {
    EarlierIsLess(rs, i, j);
    if rs[i].score == rs[j].score {
      var k := BeforePrecedes(rs[i].name, rs[j].name);
    }
  }

  /** A choice is labelled and valued by its name, or by the name's first hundred characters. */
  lemma {:induction false} ChoicesAreNames(rs: seq<Ranked>, i: nat)
    requires i < |rs|
    ensures var c := Choices(rs)[i];
            c.0 == c.1 && c.0 <= rs[i].name && (c.0 == rs[i].name || |c.0| == 100 < |rs[i].name|)
            && |c.0| <= 100
  {
    if i > 0 {
      ChoicesAreNames(rs[1..], i - 1);
    }
  }

  /** A word of the name: a run of word characters that cannot be made longer. */
  predicate WordAt(name: string, i: nat, j: nat, abc: Alphabet) {
    && i < j <= |name|
    && (forall k :: i <= k < j ==> abc.alnum(name[k]))
    && (i > 0 ==> !abc.alnum(name[i - 1]))
    && (j < |name| ==> !abc.alnum(name[j]))
  }

  /** The first part of a split is the run of word characters at the front. */
  lemma {:induction false} FirstPart(s: string, abc: Alphabet)
    ensures var n := |Split(s, abc)[0]|;
            n <= |s| && Split(s, abc)[0] == s[..n] && (forall k :: 0 <= k < n ==> abc.alnum(s[k]))
            && (n < |s| ==> !abc.alnum(s[n]))
  {
    if s != "" && abc.alnum(s[0]) {
      FirstPart(s[1..], abc);
      var n := |Split(s[1..], abc)[0]|;
      assert s[..n + 1] == [s[0]] + s[1..][..n];
      assert forall k :: 0 < k < n + 1 ==> s[k] == s[1..][k - 1];
    }
  }

  lemma {:induction false} PartIsWord(s: string, p: nat, abc: Alphabet) returns (i: nat, j: nat)
    requires p < |Split(s, abc)| && Split(s, abc)[p] != ""
    ensures WordAt(s, i, j, abc) && s[i..j] == Split(s, abc)[p] && (p == 0 ==> i == 0)
    ensures p > 0 ==> i > 0
  {
    FirstPart(s, abc);
    if p == 0 {
      i, j := 0, |Split(s, abc)[0]|;
    } else if abc.alnum(s[0]) {
      i, j := PartIsWord(s[1..], p, abc);
      WordBehind(s, i, j, abc);
      i, j := i + 1, j + 1;
    } else {
      i, j := PartIsWord(s[1..], p - 1, abc);
      WordBehind(s, i, j, abc);
      i, j := i + 1, j + 1;
    }
  }

  lemma WordBehind(s: string, i: nat, j: nat, abc: Alphabet)
    requires s != "" && WordAt(s[1..], i, j, abc) && (i > 0 || !abc.alnum(s[0]))
    ensures WordAt(s, i + 1, j + 1, abc) && s[i + 1..j + 1] == s[1..][i..j]
  {
    assert forall k :: 0 < k < |s| ==> s[k] == s[1..][k - 1];
  }

  lemma {:induction false} WordIsPart(s: string, i: nat, j: nat, abc: Alphabet) returns (p: nat)
    requires WordAt(s, i, j, abc)
    ensures p < |Split(s, abc)| && Split(s, abc)[p] == s[i..j] && (i > 0 ==> p > 0)
  {
    FirstPart(s, abc);
    if i == 0 {
      p := 0;
      var n := |Split(s, abc)[0]|;
      assert forall k :: 0 <= k < j ==> abc.alnum(s[k]);
      assert n == j;
    } else {
      assert forall k :: 0 < k < |s| ==> s[k] == s[1..][k - 1];
      p := WordIsPart(s[1..], i - 1, j - 1, abc);
      assert s[1..][i - 1..j - 1] == s[i..j];
      if !abc.alnum(s[0]) {
        p := p + 1;
      }
    }
  }

  /** The word rule speaks of the words of a name, whatever separates them. */
  lemma WordRuleIsAboutWords(name: string, query: string, abc: Alphabet)
    ensures WordStartsWith(name, query, abc)
       <==> exists i: nat, j: nat ::
              WordAt(name, i, j, abc) && Norm(name[i..j], abc) != "" && query <= Norm(name[i..j], abc)
  {
    if WordStartsWith(name, query, abc) {
      var p :| 0 <= p < |Split(name, abc)| && StartsWord(Split(name, abc)[p], query, abc);
      var i, j := PartIsWord(name, p, abc);
    }
    if i: nat, j: nat :|
         WordAt(name, i, j, abc) && Norm(name[i..j], abc) != "" && query <= Norm(name[i..j], abc) {
      var p := WordIsPart(name, i, j, abc);
      assert StartsWord(Split(name, abc)[p], query, abc);
    }
  }
}
