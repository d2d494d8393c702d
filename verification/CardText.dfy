/**
 Rewriting a card description for a level: `{base|step}` becomes base + step * (level - 1), rounded to
 hundredths.  Values are exact reals; the reading of a numeral and the notion of white space are
 parameters.
*/
module CardText {
  import opened Basics
  import opened Numbers
  import opened ScaledNumbers
  import opened Spaces
  import opened Strings

  // ----- the value between braces -----

  datatype Reading = Reading(numeral: string -> Option<real>, white: char -> bool)

  function Clamp(level: int): int {
    if level < 1 then 1 else if level > 5 then 5 else level
  }

  function StripPrefix(s: string, prefix: string): Option<string> {
    if prefix <= s then Some(s[|prefix|..]) else None
  }

  function Expression(body: string): string {
    var lower, upper := StripPrefix(body, "scale="), StripPrefix(body, "SCALE=");
    if lower.Some? then lower.value else if upper.Some? then upper.value else body
  }

  /** The parts of a text before and after its first bar, when it has one. */
  function SplitOnce(s: string): Option<(string, string)> {
    if s == "" then None
    else if s[0] == '|' then Some(("", s[1..]))
    else
      var rest := SplitOnce(s[1..]);
      if rest.None? then None else Some(([s[0]] + rest.value.0, rest.value.1))
  }

  /** The text a well-formed `base|step` is replaced by; nothing for any other body. */
  function Scaled(body: string, level: int, rd: Reading): Option<string> {
    var parts := SplitOnce(Expression(body));
    if parts.None? then None
    else
      var base, step := rd.numeral(StripCommas(parts.value.0)), rd.numeral(StripCommas(parts.value.1));
      if base.None? || step.None? then None
      else Some(FormatScaledNumber(ValueAt(base.value, step.value, level)))
  }

  function ValueAt(base: real, step: real, level: int): real {
    base + step * (Clamp(level) - 1) as real
  }

  function Scaler(level: int, rd: Reading): string -> Option<string> {
    (body: string) => Scaled(body, level, rd)
  }

  lemma {:induction false} SplitAtFirstBar(base: string, step: string)
    requires Lacks(base, '|')
    ensures SplitOnce(base + "|" + step) == Some((base, step))
  {
    var s := base + "|" + step;
    if base == "" {
      assert s[1..] == step;
    } else {
      assert s[1..] == base[1..] + "|" + step;
      SplitAtFirstBar(base[1..], step);
      assert [s[0]] + base[1..] == base;
    }
  }

  lemma {:induction false} NoBarNoSplit(s: string)
    ensures SplitOnce(s).None? <==> Lacks(s, '|')
  {
    if s != "" {
      NoBarNoSplit(s[1..]);
    }
  }

  /** What a body is worth when it reads `base|step`, counting from its first bar. */
  function Worth(base: string, step: string, level: int, rd: Reading): Option<string> {
    var b, t := rd.numeral(StripCommas(base)), rd.numeral(StripCommas(step));
    if b.Some? && t.Some? then Some(FormatScaledNumber(ValueAt(b.value, t.value, level))) else None
  }

  /**
   A body is replaced exactly when, one prefix dropped if it has one, it is two numerals around its
   first bar.
  */
  lemma ScaledExactly(body: string, level: int, rd: Reading)
    ensures forall text :: body == "scale=" + text || body == "SCALE=" + text ==> Expression(body) == text
    ensures !("scale=" <= body) && !("SCALE=" <= body) ==> Expression(body) == body
    ensures Lacks(Expression(body), '|') ==> Scaled(body, level, rd) == None
    ensures forall base, step :: Lacks(base, '|') && Expression(body) == base + "|" + step ==>
              Scaled(body, level, rd) == Worth(base, step, level, rd)
  {
    NoBarNoSplit(Expression(body));
    forall text | body == "scale=" + text || body == "SCALE=" + text ensures Expression(body) == text {
      PrefixIsDropped(text);
    }
    forall base, step | Lacks(base, '|') && Expression(body) == base + "|" + step
      ensures Scaled(body, level, rd) == Worth(base, step, level, rd)
    {
      SplitAtFirstBar(base, step);
    }
  }

  lemma PrefixIsDropped(text: string)
    ensures Expression("scale=" + text) == text && Expression("SCALE=" + text) == text
  {
    assert ("SCALE=" + text)[0] == 'S' && "scale="[0] == 's';
  }

  // ----- the pieces of a description -----

  function Braced(body: string): string {
    "{" + body + "}"
  }

  /** What a braced piece turns into; a malformed one stays as it is. */
  function Replacement(body: string, scaled: string -> Option<string>): string {
    if scaled(body).Some? then scaled(body).value else Braced(body)
  }

  /** A description is literal text and braced pieces, then perhaps an opening brace never closed. */
  datatype Piece = Literal(text: string) | Brace(body: string)

  predicate ProperPiece(p: Piece) {
    if p.Literal? then Lacks(p.text, '{') else Lacks(p.body, '}')
  }

  predicate Proper(ps: seq<Piece>) {
    ps == [] || (ProperPiece(ps[0]) && Proper(ps[1..]))
  }

  /** Nothing, or an opening brace with no closing brace after it. */
  predicate Unclosed(tail: string) {
    tail == "" || (tail[0] == '{' && Lacks(tail[1..], '}'))
  }

  function PieceSource(p: Piece): string {
    if p.Literal? then p.text else Braced(p.body)
  }

  function PieceRendered(p: Piece, scaled: string -> Option<string>): string {
    if p.Literal? then p.text else Replacement(p.body, scaled)
  }

  function Source(ps: seq<Piece>): string {
    if ps == [] then "" else PieceSource(ps[0]) + Source(ps[1..])
  }

  function Rendered(ps: seq<Piece>, scaled: string -> Option<string>): string {
    if ps == [] then "" else PieceRendered(ps[0], scaled) + Rendered(ps[1..], scaled)
  }

  // ----- reading character by character -----

  /** One pass over a text: outside braces characters are copied, inside they are gathered. */
  function Expand(s: string, scaled: string -> Option<string>): string
    decreases |s|
  {
    if s == "" then ""
    else if s[0] == '{' then Inside(s[1..], "", scaled)
    else [s[0]] + Expand(s[1..], scaled)
  }

  function Inside(s: string, body: string, scaled: string -> Option<string>): string
    decreases |s|
  {
    if s == "" then "{" + body
    else if s[0] == '}' then Replacement(body, scaled) + Expand(s[1..], scaled)
    else Inside(s[1..], body + [s[0]], scaled)
  }

  lemma {:induction false} LiteralFirst(text: string, s: string, scaled: string -> Option<string>)
    requires Lacks(text, '{')
    ensures Expand(text + s, scaled) == text + Expand(s, scaled)
  {
    if text == "" {
      assert text + s == s;
    } else {
      assert (text + s)[1..] == text[1..] + s;
      LiteralFirst(text[1..], s, scaled);
    }
  }

  lemma {:induction false} InsideCloses(t: string, body: string, s: string, scaled: string -> Option<string>)
    requires Lacks(t, '}')
    ensures Inside(t + "}" + s, body, scaled) == Replacement(body + t, scaled) + Expand(s, scaled)
  {
    var whole := t + "}" + s;
    if t == "" {
      assert whole[1..] == s;
      assert body + t == body;
    } else {
      assert whole[1..] == t[1..] + "}" + s;
      InsideCloses(t[1..], body + [t[0]], s, scaled);
      assert body + [t[0]] + t[1..] == body + t;
    }
  }

  lemma {:induction false} InsideNeverCloses(t: string, body: string, scaled: string -> Option<string>)
    requires Lacks(t, '}')
    ensures Inside(t, body, scaled) == "{" + body + t
  {
    if t == "" {
      assert "{" + body + t == "{" + body;
    } else {
      InsideNeverCloses(t[1..], body + [t[0]], scaled);
      assert "{" + (body + [t[0]]) + t[1..] == "{" + body + t;
    }
  }

  lemma BraceFirst(body: string, s: string, scaled: string -> Option<string>)
    requires Lacks(body, '}')
    ensures Expand(Braced(body) + s, scaled) == Replacement(body, scaled) + Expand(s, scaled)
  {
    InsideCloses(body, "", s, scaled);
    assert (Braced(body) + s)[1..] == body + "}" + s;
    assert "" + body == body;
  }

  lemma UnclosedStays(tail: string, scaled: string -> Option<string>)
    requires Unclosed(tail)
    ensures Expand(tail, scaled) == tail
  {
    if tail != "" {
      InsideNeverCloses(tail[1..], "", scaled);
      assert "{" + "" + tail[1..] == tail;
    }
  }

  lemma PieceFirst(p: Piece, s: string, scaled: string -> Option<string>)
    requires ProperPiece(p)
    ensures Expand(PieceSource(p) + s, scaled) == PieceRendered(p, scaled) + Expand(s, scaled)
  {
    if p.Literal? {
      LiteralFirst(p.text, s, scaled);
    } else {
      BraceFirst(p.body, s, scaled);
    }
  }

  lemma Regroup(a: string, b: string, c: string)
    ensures (a + b) + c == a + (b + c)
  {
  }

  /** However a text is cut into pieces, literals are kept and braces replaced, in order. */
  lemma {:induction false} ExpandRendersPieces(ps: seq<Piece>, tail: string, scaled: string -> Option<string>)
    requires Proper(ps) && Unclosed(tail)
    ensures Expand(Source(ps) + tail, scaled) == Rendered(ps, scaled) + tail
  {
    if ps == [] {
      assert Source(ps) + tail == tail;
      UnclosedStays(tail, scaled);
    } else {
      ExpandRendersPieces(ps[1..], tail, scaled);
      PieceFirst(ps[0], Source(ps[1..]) + tail, scaled);
      Regroup(PieceSource(ps[0]), Source(ps[1..]), tail);
      Regroup(PieceRendered(ps[0], scaled), Rendered(ps[1..], scaled), tail);
    }
  }

  lemma SourceOfOne(text: string)
    requires Lacks(text, '{')
    ensures Proper([Literal(text)]) && Source([Literal(text)]) == text
  {
    assert [Literal(text)][1..] == [];
    assert text + "" == text;
  }

  lemma SourceOfTwo(text: string, body: string, more: seq<Piece>)
    requires Lacks(text, '{') && Lacks(body, '}') && Proper(more)
    ensures Proper([Literal(text), Brace(body)] + more)
    ensures Source([Literal(text), Brace(body)] + more) == text + (Braced(body) + Source(more))
  {
    var ps := [Literal(text), Brace(body)] + more;
    assert ps[1..] == [Brace(body)] + more && ps[1..][1..] == more;
    assert Source(ps[1..]) == Braced(body) + Source(more);
  }

  /** Every text is cut into proper pieces. */
  lemma {:induction false} EveryTextHasPieces(s: string) returns (ps: seq<Piece>, tail: string)
    ensures Proper(ps) && Unclosed(tail) && s == Source(ps) + tail
    decreases |s|
  {
    var text, rest := Until(s, '{');
    var body, after := "", "";
    if rest != "" {
      body, after := Until(rest[1..], '}');
    }
    if after == "" {
      ps, tail := [Literal(text)], rest;
      SourceOfOne(text);
      if rest != "" {
        assert body + "" == body;
      }
    } else {
      var more;
      more, tail := EveryTextHasPieces(after[1..]);
      ps := [Literal(text), Brace(body)] + more;
      SourceOfTwo(text, body, more);
      BracesAround(rest, body, after);
      Regroup(Braced(body), Source(more), tail);
      Regroup(text, Braced(body) + Source(more), tail);
    }
  }

  lemma BracesAround(rest: string, body: string, after: string)
    requires rest != "" && rest[0] == '{' && rest[1..] == body + after && after != "" && after[0] == '}'
    ensures rest == Braced(body) + after[1..]
  {
    assert rest == [rest[0]] + rest[1..] && after == [after[0]] + after[1..];
  }

  lemma {:induction false} Until(s: string, c: char) returns (front: string, rest: string)
    ensures s == front + rest && Lacks(front, c) && (rest == "" || rest[0] == c)
  {
    if s == "" || s[0] == c {
      front, rest := "", s;
    } else {
      front, rest := Until(s[1..], c);
      front := [s[0]] + front;
    }
  }

  // ----- the loop -----

  /** `str::find`: the first place of a character, or the length. */
  method IndexOf(s: string, c: char) returns (i: nat)
    ensures i <= |s| && Lacks(s[..i], c) && (i < |s| ==> s[i] == c)
  {
    i := 0;
    while i < |s| && s[i] != c
      invariant i <= |s| && Lacks(s[..i], c)
    {
      i := i + 1;
    }
  }

  lemma ExpandAtBraces(s: string, open: nat, close: nat, scaled: string -> Option<string>)
    requires open < |s| && Lacks(s[..open], '{') && s[open] == '{'
    requires var after := s[open + 1..]; close < |after| && Lacks(after[..close], '}') && after[close] == '}'
    ensures var after := s[open + 1..];
            && s[open..open + close + 2] == Braced(after[..close])
            && Expand(s, scaled)
            == s[..open] + (Replacement(after[..close], scaled) + Expand(after[close + 1..], scaled))
  {
    var after := s[open + 1..];
    BracesAround(s[open..], after[..close], after[close..]);
    assert s[open..][1..] == after && after[close..][1..] == after[close + 1..];
    assert s == s[..open] + (Braced(after[..close]) + after[close + 1..]);
    LiteralFirst(s[..open], Braced(after[..close]) + after[close + 1..], scaled);
    BraceFirst(after[..close], after[close + 1..], scaled);
  }

  lemma ExpandUnclosed(s: string, open: nat, scaled: string -> Option<string>)
    requires open <= |s| && Lacks(s[..open], '{') && Unclosed(s[open..])
    ensures Expand(s, scaled) == s
  {
    assert s == s[..open] + s[open..];
    LiteralFirst(s[..open], s[open..], scaled);
    UnclosedStays(s[open..], scaled);
  }

  /** The loop over the braces of a text. */
  method ExpandBraces(source: string, scaled: string -> Option<string>) returns (output: string)
    ensures output == Expand(source, scaled)
  {
    output := "";
    var remainder := source;
    var open := IndexOf(remainder, '{');
    while open < |remainder|
      invariant 0 <= open <= |remainder| && Lacks(remainder[..open], '{')
      invariant open < |remainder| ==> remainder[open] == '{'
      invariant output + Expand(remainder, scaled) == Expand(source, scaled)
      decreases |remainder|
    {
      ghost var before := output;
      output := output + remainder[..open];
      var afterOpen := remainder[open + 1..];
      var close := IndexOf(afterOpen, '}');
      if close == |afterOpen| {
        assert remainder[open..][1..] == afterOpen == afterOpen[..close];
        ExpandUnclosed(remainder, open, scaled);
        assert remainder == remainder[..open] + remainder[open..];
        Regroup(before, remainder[..open], remainder[open..]);
        output := output + remainder[open..];
        return;
      }
      ExpandAtBraces(remainder, open, close, scaled);
      var replacement := scaled(afterOpen[..close]);
      if replacement.Some? {
        output := output + replacement.value;
      } else {
        output := output + remainder[open..open + close + 2];
      }
      Chain(before, remainder[..open], Replacement(afterOpen[..close], scaled), Expand(afterOpen[close + 1..], scaled));
      remainder := afterOpen[close + 1..];
      open := IndexOf(remainder, '{');
    }
    assert remainder[open..] == "";
    ExpandUnclosed(remainder, open, scaled);
    output := output + remainder;
  }

  lemma Chain(a: string, b: string, c: string, d: string)
    ensures a + (b + (c + d)) == a + b + c + d
  {
  }

  // ----- the whole description -----

  /** The text between a leading tag in brackets, if there is one, and the end. */
  function Untagged(s: string, rd: Reading): string {
    var trimmed := TrimEnd(TrimStart(s, rd.white), rd.white);
    if trimmed != "" && trimmed[0] == '[' && Find(trimmed, ']') < |trimmed|
    then TrimStart(trimmed[Find(trimmed, ']') + 1..], rd.white)
    else trimmed
  }

  /** The rewriting: tag off, braces replaced piece by piece, and white space collapsed last. */
  method ScaleCardDescription(description: string, level: int, rd: Reading) returns (r: string)
    ensures forall ps, tail :: Proper(ps) && Unclosed(tail) && Untagged(description, rd) == Source(ps) + tail ==>
              r == Collapse(Rendered(ps, Scaler(level, rd)) + tail, rd.white)
    ensures exists ps, tail :: Proper(ps) && Unclosed(tail) && Untagged(description, rd) == Source(ps) + tail
  {
    var source := Untagged(description, rd);
    var scaled := Scaler(level, rd);
    var output := ExpandBraces(source, scaled);
    r := Collapse(output, rd.white);
    forall ps, tail | Proper(ps) && Unclosed(tail) && source == Source(ps) + tail
      ensures r == Collapse(Rendered(ps, scaled) + tail, rd.white)
    {
      ExpandRendersPieces(ps, tail, scaled);
    }
    ghost var ps, tail := EveryTextHasPieces(source);
  }
}
