/** What a card description says at each level, and which tag it loses. */
module CardLevels {
  import opened Basics
  import opened CardText
  import opened ScaledNumbers
  import opened Spacing
  import opened Spaces
  import opened Strings
  import opened Numbers

  /** The body is two numerals around its first bar, once its prefix is dropped. */
  predicate Reads(body: string, base: string, step: string, b: real, t: real, rd: Reading) {
    && Lacks(base, '|') && Expression(body) == base + "|" + step
    && rd.numeral(StripCommas(base)) == Some(b) && rd.numeral(StripCommas(step)) == Some(t)
  }

  lemma ValueAtEachLevel(b: real, t: real, level: int)
    ensures ValueAt(b, t, 1) == b
    ensures 1 <= level <= 5 ==> ValueAt(b, t, level) == b + (level - 1) as real * t
    ensures level < 1 ==> ValueAt(b, t, level) == ValueAt(b, t, 1)
    ensures level > 5 ==> ValueAt(b, t, level) == ValueAt(b, t, 5)
  {
  }

  lemma TextOfValue(body: string, base: string, step: string, b: real, t: real, level: int, v: real, rd: Reading)
    requires Reads(body, base, step, b, t, rd) && v == ValueAt(b, t, level)
    ensures Scaled(body, level, rd) == Some(FormatScaledNumber(v))
  {
    SplitAtFirstBar(base, step);
  }

  /** At level 1 the text is the base, formatted. */
  lemma FirstLevelIsTheBase(body: string, base: string, step: string, b: real, t: real, rd: Reading)
    requires Reads(body, base, step, b, t, rd)
    ensures Scaled(body, 1, rd) == Some(FormatScaledNumber(b))
  {
    ValueAtEachLevel(b, t, 1);
    TextOfValue(body, base, step, b, t, 1, b, rd);
  }

  /** The text of a value reads back as its nearest hundredth, or, where a minus sign is lost, its negation. */
  predicate ReadsAs(text: string, v: real) {
    && (FitsI64(v) && !LosesSign(v) ==> -0.5 <= 100.0 * v - ReadHundredths(text) as real <= 0.5)
    && (LosesSign(v) ==> -0.5 <= 100.0 * v + ReadHundredths(text) as real <= 0.5)
  }

  lemma FormattedReadsAs(v: real)
    ensures ReadsAs(FormatScaledNumber(v), v)
  {
    ScaledNumberReadsBack(v);
  }

  /** At each level the text reads back as the base and one step for each level above the first. */
  lemma EachLevelAddsAStep(body: string, base: string, step: string, b: real, t: real, level: int, rd: Reading)
    requires Reads(body, base, step, b, t, rd) && 1 <= level <= 5
    ensures Scaled(body, level, rd).Some?
    ensures ReadsAs(Scaled(body, level, rd).value, b + (level - 1) as real * t)
  {
    var v := b + (level - 1) as real * t;
    ValueAtEachLevel(b, t, level);
    TextOfValue(body, base, step, b, t, level, v, rd);
    FormattedReadsAs(v);
  }

  /** Levels below the first count as the first, levels above the fifth as the fifth. */
  lemma LevelsAreClamped(body: string, level: int, rd: Reading)
    ensures level < 1 ==> Scaled(body, level, rd) == Scaled(body, 1, rd)
    ensures level > 5 ==> Scaled(body, level, rd) == Scaled(body, 5, rd)
  {
    var parts := SplitOnce(Expression(body));
    if parts.Some? {
      var b, t := rd.numeral(StripCommas(parts.value.0)), rd.numeral(StripCommas(parts.value.1));
      if b.Some? && t.Some? {
        ValueAtEachLevel(b.value, t.value, level);
      }
    }
  }

  // ----- the tag -----

  /** Without a leading bracket only the blanks around a text go. */
  lemma NoTagNothingDropped(front: string, s: string, back: string, rd: Reading)
    requires Blank(front, rd.white) && Blank(back, rd.white) && StartsSolid(s, rd.white) && EndsSolid(s, rd.white)
    requires s != "" ==> s[0] != '['
    ensures Untagged(front + (s + back), rd) == s
  {
    TrimsToTheMiddle(front, s, back, rd.white);
  }

  /** A bracket that is never closed is no tag. */
  lemma UnclosedTagStays(front: string, s: string, back: string, rd: Reading)
    requires Blank(front, rd.white) && Blank(back, rd.white) && StartsSolid(s, rd.white) && EndsSolid(s, rd.white)
    requires Lacks(s, ']')
    ensures Untagged(front + (s + back), rd) == s
  {
    TrimsToTheMiddle(front, s, back, rd.white);
    FindIsFirst(s, ']');
  }

  /** A leading tag in brackets goes, with the blanks after it. */
  lemma TagIsDropped(front: string, tag: string, gap: string, s: string, back: string, rd: Reading)
    requires Blank(front, rd.white) && Blank(gap, rd.white) && Blank(back, rd.white)
    requires s != "" && StartsSolid(s, rd.white) && EndsSolid(s, rd.white)
    requires Lacks(tag, ']') && !rd.white('[')
    ensures Untagged(front + ("[" + tag + "]" + (gap + s) + back), rd) == s
  {
    var tagged := "[" + tag + "]" + (gap + s);
    assert tagged[|tagged| - 1] == s[|s| - 1] && tagged[0] == '[';
    TrimsToTheMiddle(front, tagged, back, rd.white);
    FindAfter("[" + tag, "]" + (gap + s), ']');
    assert tagged == "[" + tag + ("]" + (gap + s));
    assert tagged[|tag| + 2..] == gap + s;
    TrimOfPadded(gap, s, rd.white);
  }

  lemma TrimsToTheMiddle(front: string, s: string, back: string, white: char -> bool)
    requires Blank(front, white) && Blank(back, white) && StartsSolid(s, white) && EndsSolid(s, white)
    ensures TrimEnd(TrimStart(front + (s + back), white), white) == s
  {
    if s == "" {
      assert s + back == back && back == back + "";
      assert front + back == (front + back) + "";
      TrimOfPadded(front + back, "", white);
    } else {
      TrimOfPadded(front, s + back, white);
      TrimEndOfPadded(s, back, white);
    }
  }

  // ----- braces -----

  /** The first closed pair of braces: what is before it stays, and so does a body that cannot be read. */
  lemma FirstBracesDecide(text: string, body: string, rest: string, level: int, rd: Reading)
    requires Lacks(text, '{') && Lacks(body, '}')
    ensures var replaced := Scaled(body, level, rd);
            Expand(text + ("{" + body + "}" + rest), Scaler(level, rd))
            == text + ((if replaced.Some? then replaced.value else "{" + body + "}") + Expand(rest, Scaler(level, rd)))
  {
    LiteralFirst(text, Braced(body) + rest, Scaler(level, rd));
    BraceFirst(body, rest, Scaler(level, rd));
  }

  /** A brace that is never closed stays, with everything after it. */
  lemma UnclosedBraceStays(text: string, rest: string, level: int, rd: Reading)
    requires Lacks(text, '{') && Lacks(rest, '}')
    ensures Expand(text + ("{" + rest), Scaler(level, rd)) == text + ("{" + rest)
    ensures Expand(text, Scaler(level, rd)) == text
  {
    LiteralFirst(text, "{" + rest, Scaler(level, rd));
    assert ("{" + rest)[1..] == rest;
    UnclosedStays("{" + rest, Scaler(level, rd));
    assert text + "" == text;
    LiteralFirst(text, "", Scaler(level, rd));
  }
}
