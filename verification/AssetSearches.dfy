/** What each artwork search finds, said of the files themselves: which names count, and which file wins. */
module AssetSearches {
  import opened Basics
  import opened AssetCatalog
  import opened Decimals
  import opened Normalization
  import opened Spaces
  import opened Spacing
  import opened Strings

  // ----- the winner among the files that count -----

  predicate InFormat(p: Path, formats: set<string>, abc: Alphabet) {
    p.ext.Some? && abc.lowerAscii(p.ext.value) in formats
  }

  /** Formats in order of preference: AVIF, PNG, WebP, JPEG under either name, anything else. */
  predicate Better(p: Path, q: Path, abc: Alphabet) {
    || (InFormat(p, {"avif"}, abc) && !InFormat(q, {"avif"}, abc))
    || (InFormat(p, {"png"}, abc) && !InFormat(q, {"avif", "png"}, abc))
    || (InFormat(p, {"webp"}, abc) && !InFormat(q, {"avif", "png", "webp"}, abc))
    || (InFormat(p, {"jpg", "jpeg"}, abc) && !InFormat(q, {"avif", "png", "webp", "jpg", "jpeg"}, abc))
  }

  /** `p` at `k` is the first file of the best format among those that count. */
  predicate WinsAt(files: seq<Path>, counts: Path -> bool, k: nat, abc: Alphabet)
    requires k < |files|
  {
    && counts(files[k])
    && (forall j :: 0 <= j < |files| && counts(files[j]) ==> !Better(files[j], files[k], abc))
    && (forall j :: 0 <= j < k && counts(files[j]) ==> Better(files[k], files[j], abc))
  }

  predicate AnyCounts(files: seq<Path>, counts: Path -> bool) {
    exists k :: 0 <= k < |files| && counts(files[k])
  }

  /** The winner, or nothing when no file counts. */
  predicate IsBest(files: seq<Path>, counts: Path -> bool, r: Option<Path>, abc: Alphabet) {
    if r.None? then !AnyCounts(files, counts)
    else exists k :: 0 <= k < |files| && files[k] == r.value && WinsAt(files, counts, k, abc)
  }

  /** The winner by the first test any file passes. */
  predicate IsBestOf(files: seq<Path>, tests: seq<Path -> bool>, r: Option<Path>, abc: Alphabet) {
    if tests == [] then r.None?
    else if AnyCounts(files, tests[0]) then IsBest(files, tests[0], r, abc)
    else IsBestOf(files, tests[1..], r, abc)
  }

  /** The file is called this, once normalized. */
  function Called(name: string, abc: Alphabet): Path -> bool {
    (p: Path) => p.stem.Some? && Norm(p.stem.value, abc) == Norm(name, abc)
  }

  /** The normalized path holds both texts. */
  function Holding(part: string, other: string, abc: Alphabet): Path -> bool {
    (p: Path) => Contains(Norm(p.path, abc), part) && Contains(Norm(p.path, abc), other)
  }

  lemma BetterIsPriority(p: Path, q: Path, abc: Alphabet)
    ensures Better(p, q, abc) <==> Priority(p, abc) < Priority(q, abc)
  {
  }

  function Kept(files: seq<Path>, counts: Path -> bool): seq<Path> {
    if files == [] then [] else (if counts(files[0]) then [files[0]] else []) + Kept(files[1..], counts)
  }

  lemma {:induction false} KeptNone(files: seq<Path>, counts: Path -> bool)
    ensures Kept(files, counts) == [] <==> !AnyCounts(files, counts)
  {
    if files != [] {
      KeptNone(files[1..], counts);
      assert forall k :: 0 < k < |files| ==> files[k] == files[1..][k - 1];
      if AnyCounts(files[1..], counts) {
        var k :| 0 <= k < |files[1..]| && counts(files[1..][k]);
        assert counts(files[k + 1]);
      }
    }
  }

  /** One more file in front: it wins unless a later one is better. */
  lemma WinnerWithFirst(files: seq<Path>, counts: Path -> bool, k: nat, abc: Alphabet)
    requires files != [] && k < |files| - 1 && WinsAt(files[1..], counts, k, abc)
    ensures counts(files[0]) && !Better(files[k + 1], files[0], abc) ==> WinsAt(files, counts, 0, abc)
    ensures !counts(files[0]) || Better(files[k + 1], files[0], abc) ==> WinsAt(files, counts, k + 1, abc)
  {
    assert files[1..][k] == files[k + 1];
    forall j | 0 <= j < |files|
      ensures j > 0 && counts(files[j]) ==> Priority(files[k + 1], abc) <= Priority(files[j], abc)
      ensures 0 < j < k + 1 && counts(files[j]) ==> Priority(files[k + 1], abc) < Priority(files[j], abc)
    {
      if j > 0 {
        assert files[1..][j - 1] == files[j];
        BetterIsPriority(files[j], files[k + 1], abc);
        BetterIsPriority(files[k + 1], files[j], abc);
      }
    }
    forall p, q ensures Better(p, q, abc) <==> Priority(p, abc) < Priority(q, abc) {
      BetterIsPriority(p, q, abc);
    }
  }

  lemma {:induction false} PreferredWins(files: seq<Path>, counts: Path -> bool, abc: Alphabet)
    ensures IsBest(files, counts, Preferred(Kept(files, counts), abc), abc)
  {
    KeptNone(files, counts);
    if files != [] {
      PreferredWins(files[1..], counts, abc);
      KeptNone(files[1..], counts);
      var rest := Kept(files[1..], counts);
      var later := Preferred(rest, abc);
      if counts(files[0]) {
        assert Kept(files, counts)[1..] == rest;
      } else {
        assert Kept(files, counts) == rest;
      }
      if later.Some? {
        var k :| 0 <= k < |files[1..]| && files[1..][k] == later.value && WinsAt(files[1..], counts, k, abc);
        WinnerWithFirst(files, counts, k, abc);
        BetterIsPriority(later.value, files[0], abc);
        assert files[k + 1] == later.value;
      } else if counts(files[0]) {
        OnlyFirstWins(files, counts, abc);
      }
    }
  }

  lemma OnlyFirstWins(files: seq<Path>, counts: Path -> bool, abc: Alphabet)
    requires files != [] && counts(files[0]) && !AnyCounts(files[1..], counts)
    ensures WinsAt(files, counts, 0, abc)
  {
    assert forall j :: 0 < j < |files| ==> files[j] == files[1..][j - 1];
    BetterIsPriority(files[0], files[0], abc);
  }

  // ----- the two kinds of test -----

  lemma {:induction false} StemsKept(files: seq<Path>, name: string, abc: Alphabet)
    ensures WithStem(files, Norm(name, abc), abc) == Kept(files, Called(name, abc))
  {
    if files != [] {
      StemsKept(files[1..], name, abc);
    }
  }

  lemma {:induction false} PartsKept(files: seq<Path>, part: string, other: string, abc: Alphabet)
    ensures WithParts(files, part, other, abc) == Kept(files, Holding(part, other, abc))
  {
    if files != [] {
      PartsKept(files[1..], part, other, abc);
    }
  }

  lemma StemWins(files: seq<Path>, name: string, abc: Alphabet)
    ensures IsBest(files, Called(name, abc), ByStem(files, Norm(name, abc), abc), abc)
  {
    StemsKept(files, name, abc);
    PreferredWins(files, Called(name, abc), abc);
  }

  lemma PartWins(files: seq<Path>, part: string, other: string, abc: Alphabet)
    ensures IsBest(files, Holding(part, other, abc), Preferred(WithParts(files, part, other, abc), abc), abc)
  {
    PartsKept(files, part, other, abc);
    PreferredWins(files, Holding(part, other, abc), abc);
  }

  /** A search that falls back on another, as tests tried in order. */
  lemma Fallback(files: seq<Path>, test: Path -> bool, rest: seq<Path -> bool>, a: Option<Path>, b: Option<Path>,
                 abc: Alphabet)
    requires IsBest(files, test, a, abc) && IsBestOf(files, rest, b, abc)
    ensures IsBestOf(files, [test] + rest, OrElse(a, b), abc)
  {
    assert ([test] + rest)[1..] == rest;
    if a.Some? {
      var k :| 0 <= k < |files| && files[k] == a.value && WinsAt(files, test, k, abc);
      assert test(files[k]);
    }
  }

  lemma Last(files: seq<Path>, test: Path -> bool, a: Option<Path>, abc: Alphabet)
    requires IsBest(files, test, a, abc)
    ensures IsBestOf(files, [test], a, abc)
  {
    Fallback(files, test, [], a, None, abc);
    assert [test] + [] == [test];
  }

  // ----- the searches -----

  /** A champion's icon by its name, or else any file whose path names the champion and an icon. */
  lemma IconFound(files: seq<Path>, champion: string, abc: Alphabet)
    ensures IsBestOf(files,
                     [Called("champion " + champion + " icon", abc), Holding(Norm(champion, abc), "icon", abc)],
                     FindIcon(files, champion, abc), abc)
  {
    var stem, part := Called("champion " + champion + " icon", abc), Holding(Norm(champion, abc), "icon", abc);
    StemWins(files, "champion " + champion + " icon", abc);
    PartWins(files, Norm(champion, abc), "icon", abc);
    var byPart := Preferred(WithParts(files, Norm(champion, abc), "icon", abc), abc);
    Last(files, part, byPart, abc);
    Fallback(files, stem, [part], ByStem(files, Norm("champion " + champion + " icon", abc), abc), byPart, abc);
    assert [stem] + [part] == [stem, part];
  }

  /** A champion's banner, or else its icon. */
  lemma BannerFound(files: seq<Path>, champion: string, abc: Alphabet)
    ensures IsBestOf(files,
                     [Called("banner " + champion, abc), Called("champion " + champion + " icon", abc),
                      Holding(Norm(champion, abc), "icon", abc)],
                     FindBanner(files, champion, abc), abc)
  {
    var banner := Called("banner " + champion, abc);
    var icon := [Called("champion " + champion + " icon", abc), Holding(Norm(champion, abc), "icon", abc)];
    StemWins(files, "banner " + champion, abc);
    IconFound(files, champion, abc);
    var byStem := ByStem(files, Norm("banner " + champion, abc), abc);
    Fallback(files, banner, icon, byStem, FindIcon(files, champion, abc), abc);
    assert [banner] + icon == [banner, icon[0], icon[1]];
  }

  /** Ranked artwork by name, then by path, then any artwork of the map, then the neutral map. */
  lemma MapFound(files: seq<Path>, wanted: string, abc: Alphabet)
    ensures IsBestOf(files,
                     [Called("ranked " + wanted, abc), Holding(wanted, "ranked", abc), Holding(wanted, "", abc),
                      Called("Match_Test_Maps", abc)],
                     FindMap(files, wanted, abc), abc)
  {
    var named, ranked := Called("ranked " + wanted, abc), Holding(wanted, "ranked", abc);
    var any, neutral := Holding(wanted, "", abc), Called("Match_Test_Maps", abc);
    StemWins(files, "ranked " + wanted, abc);
    PartWins(files, wanted, "ranked", abc);
    PartWins(files, wanted, "", abc);
    StemWins(files, "Match_Test_Maps", abc);
    var r4 := ByStem(files, Norm("Match_Test_Maps", abc), abc);
    var r3 := OrElse(Preferred(WithParts(files, wanted, "", abc), abc), r4);
    var r2 := OrElse(Preferred(WithParts(files, wanted, "ranked", abc), abc), r3);
    Last(files, neutral, r4, abc);
    Fallback(files, any, [neutral], Preferred(WithParts(files, wanted, "", abc), abc), r4, abc);
    assert [any] + [neutral] == [any, neutral];
    Fallback(files, ranked, [any, neutral], Preferred(WithParts(files, wanted, "ranked", abc), abc), r3, abc);
    assert [ranked] + [any, neutral] == [ranked, any, neutral];
    Fallback(files, named, [ranked, any, neutral], ByStem(files, Norm("ranked " + wanted, abc), abc), r2, abc);
    assert [named] + [ranked, any, neutral] == [named, ranked, any, neutral];
  }

  // ----- map names -----

  /** Ranked, live and work-in-progress marks in any case, and version numbers. */
  predicate IsMark(word: string, abc: Alphabet) {
    abc.lower(word) in {"ranked", "live", "wip"} || (word != "" && word[0] == 'v' && AllDigits(word[1..]))
  }

  lemma {:induction false} UntaggedConcat(a: seq<string>, b: seq<string>, abc: Alphabet)
    ensures Untagged(a + b, abc) == Untagged(a, abc) + Untagged(b, abc)
  {
    if a == [] {
      assert a + b == b;
    } else {
      assert (a + b)[1..] == a[1..] + b;
      UntaggedConcat(a[1..], b, abc);
    }
  }

  lemma {:induction false} PlainConcat(a: seq<string>, b: seq<string>, white: char -> bool)
    ensures AllPlain(a + b, white) <==> AllPlain(a, white) && AllPlain(b, white)
  {
    if a == [] {
      assert a + b == b;
    } else {
      assert (a + b)[1..] == a[1..] + b;
      PlainConcat(a[1..], b, white);
    }
  }

  /** Marks anywhere in a map's name do not matter. */
  lemma MarksAreIgnored(a: seq<string>, mark: string, b: seq<string>, abc: Alphabet)
    requires AllPlain(a + [mark] + b, abc.white) && abc.white(' ') && IsMark(mark, abc)
    ensures MapKey(Join(a + [mark] + b), abc) == MapKey(Join(a + b), abc)
  {
    PlainConcat(a + [mark], b, abc.white);
    PlainConcat(a, [mark], abc.white);
    PlainConcat(a, b, abc.white);
    WordsOfJoin(a + [mark] + b, abc.white);
    WordsOfJoin(a + b, abc.white);
    UntaggedConcat(a + [mark], b, abc);
    UntaggedConcat(a, [mark], abc);
    UntaggedConcat(a, b, abc);
    assert IsTag(mark, abc) && [mark][1..] == [];
    assert Untagged([mark], abc) == [];
    assert Untagged(a, abc) + [] == Untagged(a, abc);
  }

  lemma {:induction false} NothingUntagged(words: seq<string>, abc: Alphabet)
    requires forall i :: 0 <= i < |words| ==> !IsMark(words[i], abc)
    ensures Untagged(words, abc) == words
  {
    if words != [] {
      assert forall i :: 0 <= i < |words[1..]| ==> words[1..][i] == words[i + 1];
      NothingUntagged(words[1..], abc);
    }
  }

  lemma NothingToTrim(s: string, white: char -> bool)
    requires StartsSolid(s, white) && EndsSolid(s, white)
    ensures TrimEnd(TrimStart(s, white), white) == s
  {
  }

  /** Every other word counts: without marks the key is the normalized name. */
  lemma OtherWordsCount(words: seq<string>, abc: Alphabet)
    requires AllPlain(words, abc.white) && abc.white(' ')
    requires forall i :: 0 <= i < |words| ==> !IsMark(words[i], abc)
    ensures MapKey(Join(words), abc) == Norm(Join(words), abc)
  {
    WordsOfJoin(words, abc.white);
    NothingUntagged(words, abc);
    JoinIsCollapsed(words, abc.white);
    NothingToTrim(Join(words), abc.white);
  }

  /** Only the words of a map's name count, not the white space around them. */
  lemma SpacingIsIgnored(name: string, abc: Alphabet)
    requires abc.white(' ')
    ensures MapKey(Collapse(name, abc.white), abc) == MapKey(name, abc)
  {
    CollapseKeepsWords(name, abc.white);
  }

  /** The file stands at `k`, has this name and exactly this extension, and none before it does. */
  predicate FirstNamed(files: seq<Path>, name: string, ext: string, k: nat, abc: Alphabet)
    requires k < |files|
  {
    && Called(name, abc)(files[k]) && files[k].ext == Some(ext)
    && forall j :: 0 <= j < k ==> !(Called(name, abc)(files[j]) && files[j].ext == Some(ext))
  }

  lemma {:induction false} FirstWithExtIs(files: seq<Path>, name: string, ext: string, abc: Alphabet)
    ensures var r := FirstWithExt(files, Norm(name, abc), ext, abc);
            if r.None? then forall k :: 0 <= k < |files| ==> !(Called(name, abc)(files[k]) && files[k].ext == Some(ext))
            else exists k :: 0 <= k < |files| && files[k] == r.value && FirstNamed(files, name, ext, k, abc)
  {
    if files != [] {
      assert forall k :: 0 < k < |files| ==> files[k] == files[1..][k - 1];
      if StemIs(files[0], Norm(name, abc), abc) && files[0].ext == Some(ext) {
        assert FirstNamed(files, name, ext, 0, abc);
      } else {
        FirstWithExtIs(files[1..], name, ext, abc);
        var r := FirstWithExt(files[1..], Norm(name, abc), ext, abc);
        if r.Some? {
          var k :| 0 <= k < |files[1..]| && files[1..][k] == r.value && FirstNamed(files[1..], name, ext, k, abc);
          assert files[k + 1] == r.value && FirstNamed(files, name, ext, k + 1, abc);
        }
      }
    }
  }

  /** The first icon with the name and the preferred extension, lower-cased, or else the best with the name. */
  lemma GenericFound(files: seq<Path>, name: string, ext: Option<string>, abc: Alphabet)
    ensures var r := FindGeneric(files, name, ext, abc);
            || (ext.Some? && r.Some?
                && exists k :: 0 <= k < |files| && files[k] == r.value
                               && FirstNamed(files, name, abc.lower(ext.value), k, abc))
            || (IsBest(files, Called(name, abc), r, abc)
                && (ext.Some? ==> forall k :: 0 <= k < |files| ==>
                      !(Called(name, abc)(files[k]) && files[k].ext == Some(abc.lower(ext.value)))))
  {
    StemWins(files, name, abc);
    if ext.Some? {
      FirstWithExtIs(files, name, abc.lower(ext.value), abc);
    }
  }

  /** A talent's artwork carries both names, but for the one renamed talent. */
  lemma TalentFound(files: seq<Path>, champion: string, talent: string, abc: Alphabet)
    ensures champion == "Seris" && talent == "Resuscitate" ==>
              IsBest(files, Called("talent Seris Soul Collector", abc), FindTalent(files, champion, talent, abc), abc)
    ensures !(champion == "Seris" && talent == "Resuscitate") ==>
              IsBest(files, Called("talent " + champion + " " + talent, abc),
                     FindTalent(files, champion, talent, abc), abc)
  {
    StemWins(files, Artwork(champion, talent), abc);
    assert "talent " + ("Seris" + (" " + "Soul Collector")) == "talent Seris Soul Collector";
    assert "talent " + (champion + (" " + talent)) == "talent " + champion + " " + talent;
  }

  // ----- ranks -----

  const GROUPS := ["Bronze", "Silver", "Gold", "Platinum", "Diamond"]

  const DIVISIONS := ["1", "2", "3", "4", "5"]

  lemma TierFound(files: seq<Path>, tier: nat, group: string, division: string, abc: Alphabet)
    requires 1 <= tier <= 25 && group == RankGroup(tier) && division == Digits(5 - (tier - 1) % 5)
    ensures IsBest(files, Called("rankicon " + group + " " + division, abc), FindRank(files, tier, abc), abc)
  {
    StemWins(files, "rankicon " + group + " " + division, abc);
  }

  /** Tiers 1 to 25 are five divisions in each of five groups, the fifth division the lowest. */
  lemma RankFound(files: seq<Path>, g: nat, d: nat, abc: Alphabet)
    requires g < 5 && 1 <= d <= 5
    ensures IsBest(files, Called("rankicon " + GROUPS[g] + " " + DIVISIONS[d - 1], abc),
                   FindRank(files, 5 * g + 6 - d, abc), abc)
  {
    var tier := 5 * g + 6 - d;
    assert (tier - 1) / 5 == g && (tier - 1) % 5 == 5 - d;
    assert Digits(d) == DIVISIONS[d - 1];
    TierFound(files, tier, GROUPS[g], DIVISIONS[d - 1], abc);
  }

  /** The other tiers have one icon each, found by its path. */
  lemma SpecialRankFound(files: seq<Path>, tier: nat, abc: Alphabet)
    requires tier == 0 || tier >= 26
    ensures IsBest(files,
                   Holding(if tier == 0 then "rankiconqualifying"
                           else if tier == 26 then "rankiconmaster" else "rankicongrandmaster", "", abc),
                   FindRank(files, tier, abc), abc)
  {
    PartWins(files, "rankiconqualifying", "", abc);
    PartWins(files, "rankiconmaster", "", abc);
    PartWins(files, "rankicongrandmaster", "", abc);
  }
}
