/**
 Memoized artwork lookups.

 A directory listing is read once and then fixed.  Normalization keeps no colon.
*/
module AssetCatalog {
  import opened Basics
  import opened Decimals
  import opened Normalization
  import opened Spaces
  import opened Strings

  datatype Path = Path(path: string, stem: Option<string>, ext: Option<string>)

  ghost predicate DropsColons(abc: Alphabet) {
    forall c: char :: Lacks(abc.fold(c), ':')
  }

  lemma {:induction false} NormHasNoColon(s: string, abc: Alphabet)
    requires DropsColons(abc)
    ensures Lacks(Norm(s, abc), ':')
  {
    if s != "" {
      NormHasNoColon(s[1..], abc);
    }
  }

  // ----- searching a listing -----

  function Priority(p: Path, abc: Alphabet): nat {
    if p.ext.None? then 4
    else
      var e := abc.lowerAscii(p.ext.value);
      if e == "avif" then 0 else if e == "png" then 1 else if e == "webp" then 2
      else if e == "jpg" || e == "jpeg" then 3 else 4
  }

  /** The first file of the best format. */
  function Preferred(files: seq<Path>, abc: Alphabet): Option<Path> {
    if files == [] then None
    else
      var rest := Preferred(files[1..], abc);
      if rest.Some? && Priority(rest.value, abc) < Priority(files[0], abc) then rest else Some(files[0])
  }

  lemma {:induction false} PreferredIsFirstBest(files: seq<Path>, abc: Alphabet) returns (k: nat)
    requires files != []
    ensures k < |files| && Preferred(files, abc) == Some(files[k])
    ensures forall j :: 0 <= j < |files| ==> Priority(files[k], abc) <= Priority(files[j], abc)
    ensures forall j :: 0 <= j < k ==> Priority(files[k], abc) < Priority(files[j], abc)
  {
    if |files| == 1 {
      k := 0;
    } else {
      var n := PreferredIsFirstBest(files[1..], abc);
      k := if Priority(files[n + 1], abc) < Priority(files[0], abc) then n + 1 else 0;
      forall j | 0 <= j < |files| ensures Priority(files[k], abc) <= Priority(files[j], abc) {
        assert j > 0 ==> files[1..][j - 1] == files[j];
      }
      forall j | 0 <= j < k ensures Priority(files[k], abc) < Priority(files[j], abc) {
        assert j > 0 ==> files[1..][j - 1] == files[j];
      }
    }
  }

  predicate StemIs(p: Path, wanted: string, abc: Alphabet) {
    p.stem.Some? && Norm(p.stem.value, abc) == wanted
  }

  function WithStem(files: seq<Path>, wanted: string, abc: Alphabet): seq<Path> {
    if files == [] then []
    else (if StemIs(files[0], wanted, abc) then [files[0]] else []) + WithStem(files[1..], wanted, abc)
  }

  function WithParts(files: seq<Path>, part: string, other: string, abc: Alphabet): seq<Path> {
    if files == [] then []
    else
      var n := Norm(files[0].path, abc);
      (if Contains(n, part) && Contains(n, other) then [files[0]] else []) + WithParts(files[1..], part, other, abc)
  }

  function FirstWithExt(files: seq<Path>, wanted: string, ext: string, abc: Alphabet): Option<Path> {
    if files == [] then None
    else if StemIs(files[0], wanted, abc) && files[0].ext == Some(ext) then Some(files[0])
    else FirstWithExt(files[1..], wanted, ext, abc)
  }

  function OrElse(a: Option<Path>, b: Option<Path>): Option<Path> {
    if a.Some? then a else b
  }

  function ByStem(files: seq<Path>, wanted: string, abc: Alphabet): Option<Path> {
    Preferred(WithStem(files, wanted, abc), abc)
  }

  // ----- the searches, as they would run without a memo -----

  function FindIcon(files: seq<Path>, champion: string, abc: Alphabet): Option<Path> {
    OrElse(ByStem(files, Norm("champion " + champion + " icon", abc), abc),
           Preferred(WithParts(files, Norm(champion, abc), "icon", abc), abc))
  }

  function FindBanner(files: seq<Path>, champion: string, abc: Alphabet): Option<Path> {
    OrElse(ByStem(files, Norm("banner " + champion, abc), abc), FindIcon(files, champion, abc))
  }

  function FindGeneric(files: seq<Path>, name: string, ext: Option<string>, abc: Alphabet): Option<Path> {
    var exact := if ext.Some? then FirstWithExt(files, Norm(name, abc), abc.lower(ext.value), abc) else None;
    OrElse(exact, ByStem(files, Norm(name, abc), abc))
  }

  /** Map names carry words that say nothing about the map: how it is played, and a version. */
  predicate IsTag(word: string, abc: Alphabet) {
    var w := abc.lower(word);
    || w == "ranked" || w == "live" || w == "wip"
    || (word != "" && word[0] == 'v' && AllDigits(word[1..]))
  }

  function Untagged(words: seq<string>, abc: Alphabet): seq<string> {
    if words == [] then []
    else (if IsTag(words[0], abc) then [] else [words[0]]) + Untagged(words[1..], abc)
  }

  /** The map asked for, which is also the memo key. */
  function MapKey(name: string, abc: Alphabet): string {
    Norm(TrimEnd(TrimStart(Join(Untagged(Words(name, abc.white), abc)), abc.white), abc.white), abc)
  }

  /** Ranked artwork by name, then by part of the path, then any artwork, then the neutral map. */
  function FindMap(files: seq<Path>, wanted: string, abc: Alphabet): Option<Path> {
    OrElse(ByStem(files, Norm("ranked " + wanted, abc), abc),
      OrElse(Preferred(WithParts(files, wanted, "ranked", abc), abc),
        OrElse(Preferred(WithParts(files, wanted, "", abc), abc),
          ByStem(files, Norm("Match_Test_Maps", abc), abc))))
  }

  function RankGroup(tier: nat): string
    requires 1 <= tier <= 25
  {
    ["Bronze", "Silver", "Gold", "Platinum", "Diamond"][(tier - 1) / 5]
  }

  /** Divisions count down from 5 within each group of five tiers. */
  function FindRank(files: seq<Path>, tier: nat, abc: Alphabet): Option<Path> {
    if tier == 0 then Preferred(WithParts(files, "rankiconqualifying", "", abc), abc)
    else if tier >= 27 then Preferred(WithParts(files, "rankicongrandmaster", "", abc), abc)
    else if tier == 26 then Preferred(WithParts(files, "rankiconmaster", "", abc), abc)
    else ByStem(files, Norm("rankicon " + RankGroup(tier) + " " + Digits(5 - (tier - 1) % 5), abc), abc)
  }

  const SERIS := "Seris"
  const RESUSCITATE := "Resuscitate"
  const SOUL_COLLECTOR := "Soul Collector"

  /** The one talent whose artwork goes by another name, recognized by its exact spelling. */
  predicate IsRenamed(champion: string, talent: string) {
    champion == SERIS && talent == RESUSCITATE
  }

  function Artwork(champion: string, talent: string): string {
    if IsRenamed(champion, talent) then "talent " + (SERIS + (" " + SOUL_COLLECTOR))
    else "talent " + (champion + (" " + talent))
  }

  function FindTalent(files: seq<Path>, champion: string, talent: string, abc: Alphabet): Option<Path> {
    ByStem(files, Norm(Artwork(champion, talent), abc), abc)
  }

  // ----- each search depends on its memo key alone -----

  lemma IconDependsOnKey(files: seq<Path>, a: string, b: string, abc: Alphabet)
    requires Norm(a, abc) == Norm(b, abc)
    ensures FindIcon(files, a, abc) == FindIcon(files, b, abc)
  {
    NormAppend("champion " + a, " icon", abc);
    NormAppend("champion ", a, abc);
    NormAppend("champion " + b, " icon", abc);
    NormAppend("champion ", b, abc);
  }

  lemma BannerDependsOnKey(files: seq<Path>, a: string, b: string, abc: Alphabet)
    requires Norm(a, abc) == Norm(b, abc)
    ensures FindBanner(files, a, abc) == FindBanner(files, b, abc)
  {
    IconDependsOnKey(files, a, b, abc);
    NormAppend("banner ", a, abc);
    NormAppend("banner ", b, abc);
  }

  function GenericKey(name: string, ext: Option<string>, abc: Alphabet): string {
    Norm(name, abc) + ":" + (if ext.Some? then ext.value else "")
  }

  /** Listings hold only files with an image format's extension, so never an empty one. */
  ghost predicate OnlyImages(files: seq<Path>, abc: Alphabet) {
    forall i :: 0 <= i < |files| ==> files[i].ext.Some? && files[i].ext != Some(abc.lower(""))
  }

  lemma {:induction false} NoFileWithEmptyExt(files: seq<Path>, wanted: string, abc: Alphabet)
    requires OnlyImages(files, abc)
    ensures FirstWithExt(files, wanted, abc.lower(""), abc) == None
  {
    if files != [] {
      assert files[0].ext != Some(abc.lower(""));
      assert forall i :: 0 <= i < |files[1..]| ==> files[1..][i] == files[i + 1];
      NoFileWithEmptyExt(files[1..], wanted, abc);
    }
  }

  /** No preference and the empty preference share a key, and on images they share an answer. */
  lemma GenericDependsOnKey(files: seq<Path>, a: string, x: Option<string>, b: string, y: Option<string>, abc: Alphabet)
    requires DropsColons(abc) && OnlyImages(files, abc)
    requires GenericKey(a, x, abc) == GenericKey(b, y, abc)
    ensures FindGeneric(files, a, x, abc) == FindGeneric(files, b, y, abc)
  {
    NormHasNoColon(a, abc);
    NormHasNoColon(b, abc);
    ColonSplits(Norm(a, abc), if x.Some? then x.value else "", Norm(b, abc), if y.Some? then y.value else "");
    NoFileWithEmptyExt(files, Norm(a, abc), abc);
  }

  // ----- talents -----

  datatype TalentRequest = TalentRequest(id: nat, champion: string, talent: string)
  {
    predicate Renamed() {
      IsRenamed(champion, talent)
    }
  }

  function TalentKey(r: TalentRequest, abc: Alphabet): string {
    Digits(r.id) + ":" + (Norm(r.champion, abc) + ":" + Norm(r.talent, abc))
  }

  lemma {:induction false} DigitsHaveNoColon(n: nat)
    ensures Lacks(Digits(n), ':')
  {
    if n >= 10 {
      DigitsHaveNoColon(n / 10);
    }
  }

  lemma TalentKeySplits(a: TalentRequest, b: TalentRequest, abc: Alphabet)
    requires DropsColons(abc) && TalentKey(a, abc) == TalentKey(b, abc)
    ensures Norm(a.champion, abc) == Norm(b.champion, abc) && Norm(a.talent, abc) == Norm(b.talent, abc)
  {
    DigitsHaveNoColon(a.id);
    DigitsHaveNoColon(b.id);
    NormHasNoColon(a.champion, abc);
    NormHasNoColon(b.champion, abc);
    ColonSplits(Digits(a.id), Norm(a.champion, abc) + ":" + Norm(a.talent, abc),
                Digits(b.id), Norm(b.champion, abc) + ":" + Norm(b.talent, abc));
    ColonSplits(Norm(a.champion, abc), Norm(a.talent, abc), Norm(b.champion, abc), Norm(b.talent, abc));
  }

  function Find(files: seq<Path>, r: TalentRequest, abc: Alphabet): Option<Path> {
    FindTalent(files, r.champion, r.talent, abc)
  }

  lemma ArtworkNorm(champion: string, talent: string, abc: Alphabet)
    ensures Norm("talent " + (champion + (" " + talent)), abc)
         == Norm("talent ", abc) + (Norm(champion, abc) + (Norm(" ", abc) + Norm(talent, abc)))
  {
    NormAppend("talent ", champion + (" " + talent), abc);
    NormAppend(champion, " " + talent, abc);
    NormAppend(" ", talent, abc);
  }

  /** Requests under one key want the same artwork when both or neither have the exact spelling. */
  lemma TalentDependsOnKeyAndSpelling(files: seq<Path>, a: TalentRequest, b: TalentRequest, abc: Alphabet)
    requires DropsColons(abc) && TalentKey(a, abc) == TalentKey(b, abc) && (a.Renamed() <==> b.Renamed())
    ensures Find(files, a, abc) == Find(files, b, abc)
  {
    TalentKeySplits(a, b, abc);
    ArtworkNorm(a.champion, a.talent, abc);
    ArtworkNorm(b.champion, b.talent, abc);
  }

  type Memo = map<string, Option<Path>>

  /** One memoized lookup: what is on record under the key, or else a search that is put on record. */
  function TalentStep(files: seq<Path>, memo: Memo, r: TalentRequest, abc: Alphabet): (Memo, Option<Path>) {
    var key := TalentKey(r, abc);
    if key in memo then (memo, memo[key]) else (memo[key := Find(files, r, abc)], Find(files, r, abc))
  }

  function MemoAfter(files: seq<Path>, rs: seq<TalentRequest>, abc: Alphabet): Memo {
    if rs == [] then map[]
    else TalentStep(files, MemoAfter(files, rs[..|rs| - 1], abc), rs[|rs| - 1], abc).0
  }

  /** What lookup `i` of a run answers. */
  function TalentAnswer(files: seq<Path>, rs: seq<TalentRequest>, i: nat, abc: Alphabet): Option<Path>
    requires i < |rs|
  {
    TalentStep(files, MemoAfter(files, rs[..i], abc), rs[i], abc).1
  }

  predicate SameKey(rs: seq<TalentRequest>, i: nat, j: nat, abc: Alphabet)
    requires i < |rs| && j < |rs|
  {
    TalentKey(rs[i], abc) == TalentKey(rs[j], abc)
  }

  predicate FirstUse(rs: seq<TalentRequest>, i: nat, abc: Alphabet)
    requires i < |rs|
  {
    forall j :: 0 <= j < i ==> !SameKey(rs, j, i, abc)
  }

  lemma {:induction false} OnlyRequestedKeys(files: seq<Path>, rs: seq<TalentRequest>, key: string, abc: Alphabet)
    ensures key in MemoAfter(files, rs, abc) ==> exists j :: 0 <= j < |rs| && TalentKey(rs[j], abc) == key
  {
    if rs != [] {
      var front := rs[..|rs| - 1];
      OnlyRequestedKeys(files, front, key, abc);
      if key in MemoAfter(files, front, abc) {
        var j :| 0 <= j < |front| && TalentKey(front[j], abc) == key;
        assert rs[j] == front[j];
      } else if key in MemoAfter(files, rs, abc) {
        assert TalentKey(rs[|rs| - 1], abc) == key;
      }
    }
  }

  lemma FirstUseIsAMiss(files: seq<Path>, rs: seq<TalentRequest>, i: nat, abc: Alphabet)
    requires i < |rs| && FirstUse(rs, i, abc)
    ensures TalentKey(rs[i], abc) !in MemoAfter(files, rs[..i], abc)
  {
    OnlyRequestedKeys(files, rs[..i], TalentKey(rs[i], abc), abc);
    assert forall j :: 0 <= j < i ==> rs[..i][j] == rs[j] && !SameKey(rs, j, i, abc);
  }

  lemma {:induction false} MemoKeeps(files: seq<Path>, rs: seq<TalentRequest>, n: nat, key: string, abc: Alphabet)
    requires n <= |rs| && key in MemoAfter(files, rs[..n], abc)
    ensures key in MemoAfter(files, rs, abc) && MemoAfter(files, rs, abc)[key] == MemoAfter(files, rs[..n], abc)[key]
  {
    if n < |rs| {
      assert rs[..|rs| - 1][..n] == rs[..n];
      MemoKeeps(files, rs[..|rs| - 1], n, key, abc);
    } else {
      assert rs[..n] == rs;
    }
  }

  /** The memo holds, under each key, the search of the first request that used it. */
  lemma MemoHoldsFirst(files: seq<Path>, rs: seq<TalentRequest>, i: nat, abc: Alphabet)
    requires i < |rs| && FirstUse(rs, i, abc)
    ensures TalentKey(rs[i], abc) in MemoAfter(files, rs, abc)
    ensures MemoAfter(files, rs, abc)[TalentKey(rs[i], abc)] == Find(files, rs[i], abc)
  {
    FirstUseIsAMiss(files, rs, i, abc);
    assert rs[..i + 1][..i] == rs[..i];
    MemoKeeps(files, rs, i + 1, TalentKey(rs[i], abc), abc);
  }

  lemma {:induction false} FirstUseOf(rs: seq<TalentRequest>, i: nat, abc: Alphabet) returns (j: nat)
    requires i < |rs|
    ensures j <= i && SameKey(rs, j, i, abc) && FirstUse(rs, j, abc)
    decreases i
  {
    if k :| 0 <= k < i && SameKey(rs, k, i, abc) {
      j := FirstUseOf(rs, k, abc);
    } else {
      j := i;
    }
  }

  /** Every lookup answers what the first request under its key would have found. */
  lemma AnswerIsFirstSearch(files: seq<Path>, rs: seq<TalentRequest>, i: nat, abc: Alphabet) returns (j: nat)
    requires i < |rs|
    ensures j <= i && SameKey(rs, j, i, abc) && FirstUse(rs, j, abc)
    ensures TalentAnswer(files, rs, i, abc) == Find(files, rs[j], abc)
  {
    j := FirstUseOf(rs, i, abc);
    var before := rs[..i];
    if j < i {
      assert forall k :: 0 <= k < j ==> SameKey(before, k, j, abc) == SameKey(rs, k, j, abc);
      MemoHoldsFirst(files, before, j, abc);
    } else {
      FirstUseIsAMiss(files, rs, i, abc);
    }
  }

  /** Requests under one key never mix the exact spelling of the renamed talent with others. */
  predicate SpelledAlike(rs: seq<TalentRequest>, abc: Alphabet) {
    forall i, j :: 0 <= i < |rs| && 0 <= j < |rs| && SameKey(rs, i, j, abc) ==> (rs[i].Renamed() <==> rs[j].Renamed())
  }

  /** What the two artwork names need to differ once normalized: their talents start differently. */
  ghost predicate KeepsInitials(abc: Alphabet) {
    abc.fold('S') == "s" && abc.fold('R') == "r"
  }

  lemma ArtworkNamesDiffer(r: TalentRequest, abc: Alphabet)
    requires KeepsInitials(abc)
    requires Norm(r.champion, abc) == Norm(SERIS, abc) && Norm(r.talent, abc) == Norm(RESUSCITATE, abc)
    requires !r.Renamed()
    ensures Norm(Artwork(r.champion, r.talent), abc) != Norm(Artwork(SERIS, RESUSCITATE), abc)
  {
    ArtworkNorm(r.champion, r.talent, abc);
    ArtworkNorm(SERIS, SOUL_COLLECTOR, abc);
    var head := Norm("talent ", abc) + (Norm(SERIS, abc) + Norm(" ", abc));
    var a, b := Norm(RESUSCITATE, abc), Norm(SOUL_COLLECTOR, abc);
    assert RESUSCITATE[0] == 'R' && SOUL_COLLECTOR[0] == 'S';
    assert a[0] == 'r' && b[0] == 's';
    assert Norm(Artwork(r.champion, r.talent), abc) == head + a;
    assert Norm(Artwork(SERIS, RESUSCITATE), abc) == head + b;
    assert (head + a)[|head|] == 'r' && (head + b)[|head|] == 's';
  }

  /** A listing with just the renamed talent's artwork tells the two spellings apart. */
  lemma SpellingsFindDifferently(a: TalentRequest, b: TalentRequest, abc: Alphabet) returns (files: seq<Path>)
    requires DropsColons(abc) && KeepsInitials(abc) && TalentKey(a, abc) == TalentKey(b, abc)
    requires a.Renamed() && !b.Renamed()
    ensures Find(files, a, abc) != Find(files, b, abc)
  {
    TalentKeySplits(a, b, abc);
    ArtworkNamesDiffer(b, abc);
    var art := Path("", Some(Artwork(SERIS, RESUSCITATE)), Some("png"));
    files := [art];
    var wanted := Norm(Artwork(SERIS, RESUSCITATE), abc);
    var other := Norm(Artwork(b.champion, b.talent), abc);
    assert files[1..] == [];
    assert WithStem(files, wanted, abc) == [art];
    assert WithStem(files, other, abc) == [];
  }

  predicate FaithfulAt(files: seq<Path>, rs: seq<TalentRequest>, i: nat, abc: Alphabet)
    requires i < |rs|
  {
    TalentAnswer(files, rs, i, abc) == Find(files, rs[i], abc)
  }

  ghost predicate Faithful(rs: seq<TalentRequest>, abc: Alphabet) {
    forall files, i :: 0 <= i < |rs| ==> FaithfulAt(files, rs, i, abc)
  }

  lemma MixedSpellingsGoWrong(rs: seq<TalentRequest>, i: nat, j: nat, abc: Alphabet)
    requires DropsColons(abc) && KeepsInitials(abc)
    requires i < |rs| && j < |rs| && SameKey(rs, i, j, abc) && rs[i].Renamed() && !rs[j].Renamed()
    ensures exists files :: !FaithfulAt(files, rs, i, abc) || !FaithfulAt(files, rs, j, abc)
  {
    var files := SpellingsFindDifferently(rs[i], rs[j], abc);
    var k := AnswerIsFirstSearch(files, rs, i, abc);
    var l := AnswerIsFirstSearch(files, rs, j, abc);
    assert SameKey(rs, k, l, abc) && SameKey(rs, l, k, abc);
    assert k == l;
    assert !FaithfulAt(files, rs, i, abc) || !FaithfulAt(files, rs, j, abc);
  }

  /**
   A run of memoized talent lookups answers what uncached searches would, whatever the listing,
   exactly when no two of its requests under one key mix the exact spelling with another.
  */
  lemma MemoIsFaithfulExactlyWhenSpelledAlike(rs: seq<TalentRequest>, abc: Alphabet)
    requires DropsColons(abc) && KeepsInitials(abc)
    ensures Faithful(rs, abc) <==> SpelledAlike(rs, abc)
  {
    if SpelledAlike(rs, abc) {
      forall files, i | 0 <= i < |rs| ensures FaithfulAt(files, rs, i, abc) {
        var j := AnswerIsFirstSearch(files, rs, i, abc);
        TalentDependsOnKeyAndSpelling(files, rs[j], rs[i], abc);
      }
    } else {
      var i, j :| 0 <= i < |rs| && 0 <= j < |rs| && SameKey(rs, i, j, abc) && rs[i].Renamed() != rs[j].Renamed();
      if rs[i].Renamed() {
        MixedSpellingsGoWrong(rs, i, j, abc);
      } else {
        MixedSpellingsGoWrong(rs, j, i, abc);
      }
    }
  }

  // ----- overlapping lookups -----

  /** A lookup reads the memo, searching on a miss; a search is put on record at any later time. */
  datatype TalentOp = Ask(request: TalentRequest) | Record(lookup: nat)

  datatype Overlap = Overlap(memo: Memo, asked: seq<TalentRequest>, answers: seq<Option<Path>>)

  const IDLE := Overlap(map[], [], [])

  function OverlapStep(files: seq<Path>, o: Overlap, op: TalentOp, abc: Alphabet): Overlap {
    match op
    case Ask(r) => o.(asked := o.asked + [r], answers := o.answers + [TalentStep(files, o.memo, r, abc).1])
    case Record(i) =>
      if i < |o.asked| then o.(memo := o.memo[TalentKey(o.asked[i], abc) := Find(files, o.asked[i], abc)]) else o
  }

  function Overlapping(files: seq<Path>, ops: seq<TalentOp>, abc: Alphabet): Overlap {
    if ops == [] then IDLE
    else OverlapStep(files, Overlapping(files, ops[..|ops| - 1], abc), ops[|ops| - 1], abc)
  }

  /** Some request made with this key would find `answer`. */
  ghost predicate FoundFor(
      files: seq<Path>, asked: seq<TalentRequest>, key: string, answer: Option<Path>, abc: Alphabet) {
    exists j :: 0 <= j < |asked| && TalentKey(asked[j], abc) == key && Find(files, asked[j], abc) == answer
  }

  lemma FoundForMore(
      files: seq<Path>, asked: seq<TalentRequest>, r: TalentRequest, key: string, answer: Option<Path>, abc: Alphabet)
    requires FoundFor(files, asked, key, answer, abc)
    ensures FoundFor(files, asked + [r], key, answer, abc)
  {
    var j :| 0 <= j < |asked| && TalentKey(asked[j], abc) == key && Find(files, asked[j], abc) == answer;
    assert (asked + [r])[j] == asked[j];
  }

  lemma FoundForItself(files: seq<Path>, asked: seq<TalentRequest>, i: nat, abc: Alphabet)
    requires i < |asked|
    ensures FoundFor(files, asked, TalentKey(asked[i], abc), Find(files, asked[i], abc), abc)
  {
  }

  ghost predicate OverlapOk(files: seq<Path>, o: Overlap, abc: Alphabet) {
    && |o.answers| == |o.asked|
    && (forall key :: key in o.memo ==> FoundFor(files, o.asked, key, o.memo[key], abc))
    && (forall i :: 0 <= i < |o.asked| ==>
          FoundFor(files, o.asked, TalentKey(o.asked[i], abc), o.answers[i], abc))
  }

  lemma NewAnswerIsFound(files: seq<Path>, o: Overlap, r: TalentRequest, abc: Alphabet)
    requires OverlapOk(files, o, abc)
    ensures FoundFor(files, o.asked + [r], TalentKey(r, abc), TalentStep(files, o.memo, r, abc).1, abc)
  {
    var key := TalentKey(r, abc);
    if key in o.memo {
      FoundForMore(files, o.asked, r, key, o.memo[key], abc);
    } else {
      FoundForItself(files, o.asked + [r], |o.asked|, abc);
    }
  }

  lemma AnswersStayFound(files: seq<Path>, o: Overlap, r: TalentRequest, answer: Option<Path>, abc: Alphabet)
    requires OverlapOk(files, o, abc) && FoundFor(files, o.asked + [r], TalentKey(r, abc), answer, abc)
    ensures OverlapOk(files, o.(asked := o.asked + [r], answers := o.answers + [answer]), abc)
  {
    var asked, answers := o.asked + [r], o.answers + [answer];
    forall key | key in o.memo ensures FoundFor(files, asked, key, o.memo[key], abc) {
      FoundForMore(files, o.asked, r, key, o.memo[key], abc);
    }
    forall i | 0 <= i < |asked| ensures FoundFor(files, asked, TalentKey(asked[i], abc), answers[i], abc) {
      if i < |o.asked| {
        FoundForMore(files, o.asked, r, TalentKey(o.asked[i], abc), o.answers[i], abc);
      }
    }
  }

  lemma AskKeepsOverlap(files: seq<Path>, o: Overlap, r: TalentRequest, abc: Alphabet)
    requires OverlapOk(files, o, abc)
    ensures OverlapOk(files, OverlapStep(files, o, Ask(r), abc), abc)
  {
    NewAnswerIsFound(files, o, r, abc);
    AnswersStayFound(files, o, r, TalentStep(files, o.memo, r, abc).1, abc);
  }

  lemma RecordKeepsOverlap(files: seq<Path>, o: Overlap, i: nat, abc: Alphabet)
    requires OverlapOk(files, o, abc)
    ensures OverlapOk(files, OverlapStep(files, o, Record(i), abc), abc)
  {
    if i < |o.asked| {
      FoundForItself(files, o.asked, i, abc);
    }
  }

  lemma StepKeepsOverlap(files: seq<Path>, o: Overlap, op: TalentOp, abc: Alphabet)
    requires OverlapOk(files, o, abc)
    ensures OverlapOk(files, OverlapStep(files, o, op, abc), abc)
  {
    match op
    case Ask(r) => AskKeepsOverlap(files, o, r, abc);
    case Record(i) => RecordKeepsOverlap(files, o, i, abc);
  }

  lemma {:induction false} OverlapKept(files: seq<Path>, ops: seq<TalentOp>, abc: Alphabet)
    ensures OverlapOk(files, Overlapping(files, ops, abc), abc)
  {
    if ops != [] {
      OverlapKept(files, ops[..|ops| - 1], abc);
      StepKeepsOverlap(files, Overlapping(files, ops[..|ops| - 1], abc), ops[|ops| - 1], abc);
    }
  }

  /** However lookups overlap, so that several miss and search at once, spelling alike keeps them faithful. */
  lemma OverlappingLookupsAreFaithful(files: seq<Path>, ops: seq<TalentOp>, i: nat, abc: Alphabet)
    requires DropsColons(abc) && SpelledAlike(Overlapping(files, ops, abc).asked, abc)
    requires i < |Overlapping(files, ops, abc).asked|
    ensures var o := Overlapping(files, ops, abc);
            i < |o.answers| && o.answers[i] == Find(files, o.asked[i], abc)
  {
    var o := Overlapping(files, ops, abc);
    OverlapKept(files, ops, abc);
    var key := TalentKey(o.asked[i], abc);
    assert FoundFor(files, o.asked, key, o.answers[i], abc);
    var j :| 0 <= j < |o.asked| && TalentKey(o.asked[j], abc) == key && Find(files, o.asked[j], abc) == o.answers[i];
    assert SameKey(o.asked, j, i, abc);
    TalentDependsOnKeyAndSpelling(files, o.asked[j], o.asked[i], abc);
  }

  // ----- the catalog -----

  class Catalog {
    const abc: Alphabet
    const championFiles: seq<Path>
    const mapFiles: seq<Path>
    const rankFiles: seq<Path>
    const iconFiles: seq<Path>
    var championIcons: Memo
    var championBanners: Memo
    var talentIcons: Memo
    var mapImages: Memo
    var rankIcons: map<nat, Option<Path>>
    var icons: Memo

    /** What each memo has on record is what the search finds for every name with that key. */
    ghost predicate Valid()
      reads this
    {
      && DropsColons(abc) && OnlyImages(iconFiles, abc)
      && (forall name :: Norm(name, abc) in championIcons ==>
            championIcons[Norm(name, abc)] == FindIcon(championFiles, name, abc))
      && (forall name :: Norm(name, abc) in championBanners ==>
            championBanners[Norm(name, abc)] == FindBanner(championFiles, name, abc))
      && (forall name :: MapKey(name, abc) in mapImages ==>
            mapImages[MapKey(name, abc)] == FindMap(mapFiles, MapKey(name, abc), abc))
      && (forall tier :: tier in rankIcons ==> rankIcons[tier] == FindRank(rankFiles, tier, abc))
      && (forall name, ext :: GenericKey(name, ext, abc) in icons ==>
            icons[GenericKey(name, ext, abc)] == FindGeneric(iconFiles, name, ext, abc))
    }

    constructor (abc: Alphabet, championFiles: seq<Path>, mapFiles: seq<Path>, rankFiles: seq<Path>,
                 iconFiles: seq<Path>)
      requires DropsColons(abc) && OnlyImages(iconFiles, abc)
      ensures Valid() && talentIcons == map[]
      ensures this.abc == abc && this.championFiles == championFiles && this.mapFiles == mapFiles
      ensures this.rankFiles == rankFiles && this.iconFiles == iconFiles
    {
      this.abc, this.championFiles, this.mapFiles := abc, championFiles, mapFiles;
      this.rankFiles, this.iconFiles := rankFiles, iconFiles;
      championIcons, championBanners, talentIcons := map[], map[], map[];
      mapImages, rankIcons, icons := map[], map[], map[];
    }

    method ChampionIcon(name: string) returns (r: Option<Path>)
      requires Valid()
      modifies this`championIcons
      ensures Valid() && r == FindIcon(championFiles, name, abc)
      ensures championIcons == old(championIcons)[Norm(name, abc) := r]
    {
      var key := Norm(name, abc);
      if key in championIcons {
        return championIcons[key];
      }
      r := FindIcon(championFiles, name, abc);
      championIcons := championIcons[key := r];
      forall other | Norm(other, abc) == key ensures FindIcon(championFiles, other, abc) == r {
        IconDependsOnKey(championFiles, other, name, abc);
      }
    }

    /** The fallback goes through the icon memo, which it may fill. */
    method ChampionBanner(name: string) returns (r: Option<Path>)
      requires Valid()
      modifies this`championIcons, this`championBanners
      ensures Valid() && r == FindBanner(championFiles, name, abc)
      ensures championBanners == old(championBanners)[Norm(name, abc) := r]
    {
      var key := Norm(name, abc);
      if key in championBanners {
        return championBanners[key];
      }
      r := ByStem(championFiles, Norm("banner " + name, abc), abc);
      if r.None? {
        r := ChampionIcon(name);
      }
      championBanners := championBanners[key := r];
      forall other | Norm(other, abc) == key ensures FindBanner(championFiles, other, abc) == r {
        BannerDependsOnKey(championFiles, other, name, abc);
      }
    }

    method MapImage(name: string) returns (r: Option<Path>)
      requires Valid()
      modifies this`mapImages
      ensures Valid() && r == FindMap(mapFiles, MapKey(name, abc), abc)
      ensures mapImages == old(mapImages)[MapKey(name, abc) := r]
    {
      var wanted := MapKey(name, abc);
      if wanted in mapImages {
        return mapImages[wanted];
      }
      r := FindMap(mapFiles, wanted, abc);
      mapImages := mapImages[wanted := r];
    }

    method RankIcon(tier: nat) returns (r: Option<Path>)
      requires Valid()
      modifies this`rankIcons
      ensures Valid() && r == FindRank(rankFiles, tier, abc)
      ensures rankIcons == old(rankIcons)[tier := r]
    {
      if tier in rankIcons {
        return rankIcons[tier];
      }
      r := FindRank(rankFiles, tier, abc);
      rankIcons := rankIcons[tier := r];
    }

    method Icon(name: string, ext: Option<string>) returns (r: Option<Path>)
      requires Valid()
      modifies this`icons
      ensures Valid() && r == FindGeneric(iconFiles, name, ext, abc)
      ensures icons == old(icons)[GenericKey(name, ext, abc) := r]
    {
      var key := GenericKey(name, ext, abc);
      if key in icons {
        return icons[key];
      }
      r := FindGeneric(iconFiles, name, ext, abc);
      icons := icons[key := r];
      forall other, x | GenericKey(other, x, abc) == key ensures FindGeneric(iconFiles, other, x, abc) == r {
        GenericDependsOnKey(iconFiles, other, x, name, ext, abc);
      }
    }

    method TalentIcon(id: Option<nat>, champion: string, talent: string) returns (r: Option<Path>)
      requires Valid()
      modifies this`talentIcons
      ensures Valid()
      ensures (talentIcons, r) == TalentStep(championFiles, old(talentIcons),
                                             TalentRequest(if id.Some? then id.value else 0, champion, talent), abc)
    {
      var key := TalentKey(TalentRequest(if id.Some? then id.value else 0, champion, talent), abc);
      if key in talentIcons {
        return talentIcons[key];
      }
      var name := if champion == SERIS && talent == RESUSCITATE then SERIS + (" " + SOUL_COLLECTOR)
                  else champion + (" " + talent);
      r := ByStem(championFiles, Norm("talent " + name, abc), abc);
      talentIcons := talentIcons[key := r];
    }
  }
}
