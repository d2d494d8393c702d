/** What trimming, cutting into words and collapsing do to any text, for any notion of white space. */
module Spacing {
  import opened Spaces

  predicate Blank(s: string, white: char -> bool) {
    forall i :: 0 <= i < |s| ==> white(s[i])
  }

  predicate Solid(s: string, white: char -> bool) {
    forall i :: 0 <= i < |s| ==> !white(s[i])
  }

  predicate StartsSolid(s: string, white: char -> bool) {
    s != "" ==> !white(s[0])
  }

  predicate EndsSolid(s: string, white: char -> bool) {
    s != "" ==> !white(s[|s| - 1])
  }

  /** Trimming takes off a blank front and leaves a text that starts solid. */
  lemma {:induction false} TrimsFront(s: string, white: char -> bool) returns (front: string)
    ensures s == front + TrimStart(s, white) && Blank(front, white) && StartsSolid(TrimStart(s, white), white)
  {
    if s != "" && white(s[0]) {
      front := TrimsFront(s[1..], white);
      front := [s[0]] + front;
      assert s == [s[0]] + s[1..];
    } else {
      front := "";
    }
  }

  lemma {:induction false} TrimsBack(s: string, white: char -> bool) returns (back: string)
    ensures s == TrimEnd(s, white) + back && Blank(back, white) && EndsSolid(TrimEnd(s, white), white)
  {
    if s != "" && white(s[|s| - 1]) {
      back := TrimsBack(s[..|s| - 1], white);
      back := back + [s[|s| - 1]];
      assert s == s[..|s| - 1] + [s[|s| - 1]];
    } else {
      back := "";
    }
  }

  /** Blanks around a text that starts and ends solid are all that trimming takes off. */
  lemma {:induction false} TrimOfPadded(front: string, s: string, white: char -> bool)
    requires Blank(front, white) && StartsSolid(s, white)
    ensures TrimStart(front + s, white) == s
  {
    if front == "" {
      assert front + s == s;
    } else {
      assert (front + s)[1..] == front[1..] + s;
      TrimOfPadded(front[1..], s, white);
    }
  }

  lemma {:induction false} TrimEndOfPadded(s: string, back: string, white: char -> bool)
    requires Blank(back, white) && EndsSolid(s, white)
    ensures TrimEnd(s + back, white) == s
  {
    if back == "" {
      assert s + back == s;
    } else {
      assert (s + back)[..|s + back| - 1] == s + back[..|back| - 1];
      TrimEndOfPadded(s, back[..|back| - 1], white);
    }
  }

  lemma {:induction false} SolidIsPlain(w: string, white: char -> bool)
    ensures Plain(w, white) <==> Solid(w, white)
  {
    if w != "" {
      SolidIsPlain(w[1..], white);
      assert forall i :: 0 < i < |w| ==> w[i] == w[1..][i - 1];
    }
  }

  /** A solid text is one word, a blank one holds none. */
  lemma WordsOfSolid(w: string, white: char -> bool)
    requires w != "" && Solid(w, white)
    ensures Words(w, white) == [w]
  {
    SolidIsPlain(w, white);
    assert w + "" == w;
    WordLengthOf(w, "", white);
    assert w[..|w|] == w && w[|w|..] == "";
  }

  lemma {:induction false} WordsOfBlank(s: string, white: char -> bool)
    requires Blank(s, white)
    ensures Words(s, white) == []
  {
    if s != "" {
      WordsOfBlank(s[1..], white);
    }
  }

  lemma {:induction false} WordLengthStops(x: string, c: char, y: string, white: char -> bool)
    requires white(c)
    ensures WordLength(x + [c] + y, white) == WordLength(x, white)
  {
    if x == "" {
      assert (x + [c] + y)[0] == c;
    } else {
      assert (x + [c] + y)[0] == x[0] && (x + [c] + y)[1..] == x[1..] + [c] + y;
      WordLengthStops(x[1..], c, y, white);
    }
  }

  /** White space only separates: the words on its two sides are the words of the whole. */
  lemma {:induction false} WordsSplitAtWhite(x: string, c: char, y: string, white: char -> bool)
    requires white(c)
    ensures Words(x + [c] + y, white) == Words(x, white) + Words(y, white)
    decreases |x|
  {
    var s := x + [c] + y;
    if x == "" {
      assert s[0] == c && s[1..] == y;
    } else if white(x[0]) {
      assert s[0] == x[0] && s[1..] == x[1..] + [c] + y;
      WordsSplitAtWhite(x[1..], c, y, white);
    } else {
      var n := WordLength(x, white);
      WordLengthStops(x, c, y, white);
      assert s[..n] == x[..n] && s[n..] == x[n..] + [c] + y;
      WordsSplitAtWhite(x[n..], c, y, white);
      assert [x[..n]] + (Words(x[n..], white) + Words(y, white)) == [x[..n]] + Words(x[n..], white) + Words(y, white);
    }
  }

  // ----- what collapsing leaves -----

  /** Single spaces between solid words, and nothing around them. */
  predicate Collapsed(s: string, white: char -> bool) {
    && StartsSolid(s, white)
    && EndsSolid(s, white)
    && forall i :: 0 < i < |s| && white(s[i]) ==> s[i] == ' ' && !white(s[i - 1])
  }

  lemma {:induction false} JoinIsCollapsed(words: seq<string>, white: char -> bool)
    requires AllPlain(words, white)
    ensures Collapsed(Join(words), white) && (words != [] ==> Join(words) != "")
  {
    if words != [] {
      var w := words[0];
      SolidIsPlain(w, white);
      if |words| > 1 {
        JoinIsCollapsed(words[1..], white);
        var rest := Join(words[1..]);
        var s := w + (" " + rest);
        forall i | 0 < i < |s| && white(s[i]) ensures s[i] == ' ' && !white(s[i - 1]) {
          if i > |w| {
            assert s[i] == rest[i - |w| - 1];
            assert i > |w| + 1 ==> s[i - 1] == rest[i - |w| - 2];
          }
        }
      }
    }
  }

  /** Collapsing leaves single spaces between the words, and none around them. */
  lemma CollapseIsCollapsed(s: string, white: char -> bool)
    ensures Collapsed(Collapse(s, white), white)
  {
    WordsArePlain(s, white);
    JoinIsCollapsed(Words(s, white), white);
  }
}
