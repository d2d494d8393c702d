/** Small vocabulary shared by the models. */
module Basics {
  datatype Option<+T> = None | Some(value: T)

  newtype byte = x: int | 0 <= x < 256

  type Bytes = seq<byte>

  /** The last `n` elements of `s`, or all of it when it is shorter. */
  function LastN<T>(s: seq<T>, n: nat): (r: seq<T>)
    ensures |r| == if |s| < n then |s| else n
    ensures r <= s || r == s[|s| - |r|..]
  {
    if |s| <= n then s else s[|s| - n..]
  }

  const SAMPLE_WINDOW: nat := 100

  /** Appending a sample to a window that keeps the most recent hundred. */
  function PushSample(window: seq<nat>, ms: nat): seq<nat> {
    if |window| + 1 > SAMPLE_WINDOW then (window + [ms])[1..] else window + [ms]
  }

  lemma MapGrows<K, V>(m: map<K, V>, k: K, v: V)
    requires k !in m
    ensures |m[k := v]| == |m| + 1
  {
    assert m[k := v].Keys == m.Keys + {k};
  }

  lemma MapShrinks<K, V>(m: map<K, V>, k: K)
    requires k in m
    ensures |m - {k}| == |m| - 1
  {
    assert (m - {k}).Keys == m.Keys - {k};
  }

  function Min(a: int, b: int): int {
    if a <= b then a else b
  }

  function Max(a: int, b: int): int {
    if a <= b then b else a
  }
}

/** Counting the elements of a sequence that satisfy a predicate. */
module Counting {
  function Count<T>(s: seq<T>, p: T -> bool): (n: nat)
    ensures n <= |s|
  {
    if s == [] then 0
    else Count(s[..|s| - 1], p) + (if p(s[|s| - 1]) then 1 else 0)
  }

  lemma CountAppend<T>(s: seq<T>, x: T, p: T -> bool)
    ensures Count(s + [x], p) == Count(s, p) + (if p(x) then 1 else 0)
  {
    assert (s + [x])[..|s|] == s;
  }

  lemma {:induction false} CountUpdate<T>(s: seq<T>, i: nat, x: T, p: T -> bool)
    requires i < |s|
    ensures Count(s[i := x], p) == Count(s, p) - (if p(s[i]) then 1 else 0) + (if p(x) then 1 else 0)
  {
    var last := |s| - 1;
    if i == last {
      assert s[i := x][..last] == s[..last];
    } else {
      assert s[i := x][..last] == s[..last][i := x];
      CountUpdate(s[..last], i, x, p);
    }
  }

  lemma {:induction false} CountPositive<T>(s: seq<T>, i: nat, p: T -> bool)
    requires i < |s| && p(s[i])
    ensures Count(s, p) > 0
  {
    if i < |s| - 1 {
      CountPositive(s[..|s| - 1], i, p);
    }
  }

  lemma {:induction false} CountWitness<T>(s: seq<T>, p: T -> bool) returns (i: nat)
    requires Count(s, p) > 0
    ensures i < |s| && p(s[i])
  {
    if p(s[|s| - 1]) {
      i := |s| - 1;
    } else {
      i := CountWitness(s[..|s| - 1], p);
    }
  }

  lemma {:induction false} CountMonotone<T>(s: seq<T>, p: T -> bool, q: T -> bool)
    requires forall i :: 0 <= i < |s| && p(s[i]) ==> q(s[i])
    ensures Count(s, p) <= Count(s, q)
  {
    if s != [] {
      assert forall i :: 0 <= i < |s| - 1 ==> s[..|s| - 1][i] == s[i];
      CountMonotone(s[..|s| - 1], p, q);
    }
  }

  lemma {:induction false} CountAll<T>(s: seq<T>, p: T -> bool)
    requires forall i :: 0 <= i < |s| ==> p(s[i])
    ensures Count(s, p) == |s|
  {
    if s != [] {
      assert forall i :: 0 <= i < |s| - 1 ==> s[..|s| - 1][i] == s[i];
      CountAll(s[..|s| - 1], p);
    }
  }

  /** A predicate that splits into two disjoint ones is counted by their sum. */
  lemma {:induction false} CountSplit<T>(s: seq<T>, p: T -> bool, q: T -> bool, r: T -> bool)
    requires forall i :: 0 <= i < |s| ==> (p(s[i]) <==> q(s[i]) || r(s[i])) && !(q(s[i]) && r(s[i]))
    ensures Count(s, p) == Count(s, q) + Count(s, r)
  {
    if s != [] {
      assert forall i :: 0 <= i < |s| - 1 ==> s[..|s| - 1][i] == s[i];
      CountSplit(s[..|s| - 1], p, q, r);
    }
  }

  /** The sum of `f` over a sequence. */
  function Sum<T>(s: seq<T>, f: T -> nat): nat {
    if s == [] then 0 else Sum(s[..|s| - 1], f) + f(s[|s| - 1])
  }

  lemma {:induction false} SumUpdate<T>(s: seq<T>, i: nat, x: T, f: T -> nat)
    requires i < |s|
    ensures Sum(s[i := x], f) == Sum(s, f) - f(s[i]) + f(x)
    ensures Sum(s, f) >= f(s[i])
  {
    var last := |s| - 1;
    if i == last {
      assert s[i := x][..last] == s[..last];
    } else {
      assert s[i := x][..last] == s[..last][i := x];
      SumUpdate(s[..last], i, x, f);
    }
  }
}

/** Substrings and searches. */
module Strings {
  predicate OccursAt(s: string, t: string, i: int) {
    0 <= i && i + |t| <= |s| && s[i..i + |t|] == t
  }

  predicate Contains(s: string, t: string) {
    exists i :: 0 <= i <= |s| && OccursAt(s, t, i)
  }

  predicate Lacks(s: string, c: char) {
    forall k :: 0 <= k < |s| ==> s[k] != c
  }

  lemma SplitAt(s: string, k: nat)
    requires k < |s|
    ensures s == s[..k] + [s[k]] + s[k + 1..]
  {
  }

  lemma LacksConcat(s: string, t: string, c: char)
    requires Lacks(s, c) && Lacks(t, c)
    ensures Lacks(s + t, c)
  {
  }

  /** Two texts joined by a colon come apart again when the first holds none. */
  lemma ColonSplits(a: string, x: string, b: string, y: string)
    requires Lacks(a, ':') && Lacks(b, ':') && a + ":" + x == b + ":" + y
    ensures a == b && x == y
  {
    var whole := a + ":" + x;
    assert whole[|a|] == ':' && whole[|b|] == ':';
    assert forall k :: 0 <= k < |a| ==> whole[k] == a[k];
    assert forall k :: 0 <= k < |b| ==> whole[k] == b[k];
    assert |a| == |b|;
    assert a == whole[..|a|] && b == whole[..|b|];
    assert x == whole[|a| + 1..] && y == whole[|b| + 1..];
  }

  /** Where `c` first occurs; the length when it does not. */
  function Find(s: string, c: char): (i: nat)
    ensures i <= |s|
  {
    if s == "" || s[0] == c then 0 else 1 + Find(s[1..], c)
  }

  lemma {:induction false} FindIsFirst(s: string, c: char)
    ensures Lacks(s[..Find(s, c)], c) && (Find(s, c) < |s| ==> s[Find(s, c)] == c)
  {
    if s != "" && s[0] != c {
      FindIsFirst(s[1..], c);
      assert forall k :: 0 < k < Find(s, c) ==> s[..Find(s, c)][k] == s[1..][..Find(s[1..], c)][k - 1];
    }
  }

  lemma {:induction false} FindAfter(s: string, t: string, c: char)
    requires Lacks(s, c)
    ensures Find(s + t, c) == |s| + Find(t, c)
  {
    if s == "" {
      assert s + t == t;
    } else {
      assert (s + t)[1..] == s[1..] + t;
      FindAfter(s[1..], t, c);
    }
  }
}

/** White space, whatever characters count as it. */
module Spaces {
  function TrimStart(s: string, white: char -> bool): string {
    if s != "" && white(s[0]) then TrimStart(s[1..], white) else s
  }

  function TrimEnd(s: string, white: char -> bool): string {
    if s != "" && white(s[|s| - 1]) then TrimEnd(s[..|s| - 1], white) else s
  }

  function WordLength(s: string, white: char -> bool): (n: nat)
    ensures n <= |s|
  {
    if s == "" || white(s[0]) then 0 else 1 + WordLength(s[1..], white)
  }

  /** The maximal runs of characters that are not white. */
  function Words(s: string, white: char -> bool): seq<string>
    decreases |s|
  {
    if s == "" then []
    else if white(s[0]) then Words(s[1..], white)
    else [s[..WordLength(s, white)]] + Words(s[WordLength(s, white)..], white)
  }

  function Join(words: seq<string>): string {
    if words == [] then "" else if |words| == 1 then words[0] else words[0] + (" " + Join(words[1..]))
  }

  function Collapse(s: string, white: char -> bool): string {
    Join(Words(s, white))
  }

  predicate Plain(w: string, white: char -> bool) {
    w == "" || (!white(w[0]) && Plain(w[1..], white))
  }

  predicate AllPlain(words: seq<string>, white: char -> bool) {
    words == [] || (words[0] != "" && Plain(words[0], white) && AllPlain(words[1..], white))
  }

  lemma {:induction false} WordIsPlain(s: string, white: char -> bool)
    ensures Plain(s[..WordLength(s, white)], white)
  {
    if s != "" && !white(s[0]) {
      WordIsPlain(s[1..], white);
      assert s[..WordLength(s, white)][1..] == s[1..][..WordLength(s[1..], white)];
    }
  }

  lemma {:induction false} WordsArePlain(s: string, white: char -> bool)
    ensures AllPlain(Words(s, white), white)
    decreases |s|
  {
    if s != "" {
      if white(s[0]) {
        WordsArePlain(s[1..], white);
      } else {
        WordIsPlain(s, white);
        WordsArePlain(s[WordLength(s, white)..], white);
        assert Words(s, white)[1..] == Words(s[WordLength(s, white)..], white);
      }
    }
  }

  lemma {:induction false} WordLengthOf(w: string, rest: string, white: char -> bool)
    requires Plain(w, white) && (rest == "" || white(rest[0]))
    ensures WordLength(w + rest, white) == |w|
  {
    if w == "" {
      assert w + rest == rest;
    } else {
      assert (w + rest)[1..] == w[1..] + rest;
      WordLengthOf(w[1..], rest, white);
    }
  }

  lemma {:induction false} WordsOfJoin(words: seq<string>, white: char -> bool)
    requires AllPlain(words, white) && white(' ')
    ensures Words(Join(words), white) == words
  {
    if words != [] {
      var w := words[0];
      var rest := if |words| == 1 then "" else " " + Join(words[1..]);
      WordLengthOf(w, rest, white);
      WordsOfJoin(words[1..], white);
      assert Join(words) == w + rest;
      assert (w + rest)[..|w|] == w && (w + rest)[|w|..] == rest;
      if |words| > 1 {
        assert rest[1..] == Join(words[1..]);
        assert Words(rest, white) == words[1..];
      }
      assert words == [w] + words[1..];
    }
  }

  /** Collapsing white space keeps the words and their order, and leaves one space between two. */
  lemma CollapseKeepsWords(s: string, white: char -> bool)
    requires white(' ')
    ensures Words(Collapse(s, white), white) == Words(s, white)
    ensures Collapse(Collapse(s, white), white) == Collapse(s, white)
  {
    WordsArePlain(s, white);
    WordsOfJoin(Words(s, white), white);
  }
}

/** Normalization of names, character by character. */
module Normalization {
  /**
   What one character contributes to a normalized name, whether it belongs to a word and whether it is
   white space, and two ways of lower-casing a whole text, the second touching ASCII letters only.
  */
  datatype Alphabet = Alphabet(
    fold: char -> string,
    alnum: char -> bool,
    white: char -> bool,
    lower: string -> string,
    lowerAscii: string -> string)

  function Norm(s: string, abc: Alphabet): string {
    if s == "" then "" else abc.fold(s[0]) + Norm(s[1..], abc)
  }

  lemma {:induction false} NormAppend(s: string, t: string, abc: Alphabet)
    ensures Norm(s + t, abc) == Norm(s, abc) + Norm(t, abc)
  {
    if s == "" {
      assert s + t == t;
    } else {
      assert (s + t)[0] == s[0] && (s + t)[1..] == s[1..] + t;
      NormAppend(s[1..], t, abc);
    }
  }
}

/** Decimal numerals. */
module Decimals {
  predicate IsDigit(c: char) {
    '0' <= c <= '9'
  }

  predicate AllDigits(s: string) {
    forall i :: 0 <= i < |s| ==> IsDigit(s[i])
  }

  function DigitValue(c: char): int {
    c as int - '0' as int
  }

  function Digits(n: nat): string {
    if n < 10 then [('0' as int + n) as char] else Digits(n / 10) + [('0' as int + n % 10) as char]
  }

  /** The value of a numeral, most significant digit first. */
  function ValueOf(s: string): int {
    if s == "" then 0 else 10 * ValueOf(s[..|s| - 1]) + DigitValue(s[|s| - 1])
  }

  /** Numerals are digits and are read back as the number they were written for. */
  lemma {:induction false} DigitsReadBack(n: nat)
    ensures AllDigits(Digits(n)) && |Digits(n)| > 0 && ValueOf(Digits(n)) == n
  {
    if n >= 10 {
      DigitsReadBack(n / 10);
      var front := Digits(n / 10);
      assert Digits(n)[..|front|] == front;
    }
  }

  /** And they are the shortest: none but 0 itself starts with a zero. */
  lemma {:induction false} DigitsHaveNoLeadingZero(n: nat)
    ensures n > 0 ==> Digits(n) != "" && Digits(n)[0] != '0'
  {
    if n >= 10 {
      DigitsHaveNoLeadingZero(n / 10);
    }
  }
}
