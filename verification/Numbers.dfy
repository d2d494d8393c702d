/** Thousands separators, as the image template and the embeds write them. */
module Numbers {
  import opened Decimals

  const I64_MIN: int := -0x8000_0000_0000_0000
  const I64_MAX: int := 0x7fff_ffff_ffff_ffff

  predicate IsI64(v: int) {
    I64_MIN <= v <= I64_MAX
  }

  /** The range of a signed 64-bit integer. */
  lemma SixtyFourBits(v: int)
    ensures IsI64(v) <==> -9_223_372_036_854_775_808 <= v <= 9_223_372_036_854_775_807
  {
  }

  /** A numeral in groups of three from the right. */
  function InThrees(s: string): string {
    if |s| <= 3 then s else InThrees(s[..|s| - 3]) + "," + s[|s| - 3..]
  }

  function Grouped(v: int): string {
    if v < 0 then "-" + InThrees(Digits(-v)) else InThrees(Digits(v))
  }

  // ----- the loop -----

  /** What the left-to-right loop has written after `i` digits. */
  function Written(s: string, i: nat): string
    requires i <= |s|
  {
    if i == 0 then ""
    else Written(s, i - 1) + (if i > 1 && (|s| - (i - 1)) % 3 == 0 then "," else "") + [s[i - 1]]
  }

  lemma {:induction false} WrittenWithoutLastGroup(s: string, i: nat)
    requires |s| > 3 && i <= |s| - 3
    ensures Written(s, i) == Written(s[..|s| - 3], i)
  {
    if i > 0 {
      WrittenWithoutLastGroup(s, i - 1);
    }
  }

  lemma {:induction false} WrittenIsInThrees(s: string)
    ensures Written(s, |s|) == InThrees(s)
  {
    var n := |s|;
    if n > 3 {
      WrittenIsInThrees(s[..n - 3]);
      WrittenWithoutLastGroup(s, n - 3);
      assert Written(s, n - 2) == InThrees(s[..n - 3]) + "," + [s[n - 3]];
      assert Written(s, n - 1) == InThrees(s[..n - 3]) + "," + [s[n - 3]] + [s[n - 2]];
      assert s[n - 3..] == [s[n - 3]] + [s[n - 2]] + [s[n - 1]];
    } else if n > 0 {
      assert Written(s, 1) == [s[0]];
      assert n > 1 ==> Written(s, 2) == [s[0]] + [s[1]];
      assert n > 2 ==> Written(s, 3) == [s[0]] + [s[1]] + [s[2]];
    }
  }

  /** The loop both formatters share. */
  method GroupDigits(digits: string) returns (grouped: string)
    ensures grouped == InThrees(digits)
  {
    grouped := "";
    for index := 0 to |digits|
      invariant grouped == Written(digits, index)
    {
      if index > 0 && (|digits| - index) % 3 == 0 {
        grouped := grouped + ",";
      }
      grouped := grouped + [digits[index]];
    }
    WrittenIsInThrees(digits);
  }

  method Number(value: int) returns (r: string)
    requires IsI64(value)
    ensures r == Grouped(value)
  {
    var negative := value < 0;
    var grouped := GroupDigits(Digits(if negative then -value else value));
    r := if negative then "-" + grouped else grouped;
  }

  /** `i64::abs` leaves the least integer as it is, sign and all. */
  function WrappingAbs(v: int): int {
    if v == I64_MIN then v else if v < 0 then -v else v
  }

  function ToString(v: int): string {
    if v < 0 then "-" + Digits(-v) else Digits(v)
  }

  /** The embeds' formatter agrees with the template's on every integer but the least. */
  method FormatGrouped(n: int) returns (r: string)
    requires IsI64(n)
    ensures r == Grouped(n) <==> n != I64_MIN
  {
    var neg := n < 0;
    var out := GroupDigits(ToString(WrappingAbs(n)));
    r := if neg then "-" + out else out;
    if n == I64_MIN {
      FirstIsKept(ToString(n));
      FirstIsKept(Digits(-n));
      DigitsReadBack(-n);
      assert r[1] == '-' && Grouped(n)[1] == Digits(-n)[0] != '-';
    }
  }

  lemma {:induction false} FirstIsKept(s: string)
    requires s != ""
    ensures InThrees(s) != "" && InThrees(s)[0] == s[0]
  {
    if |s| > 3 {
      FirstIsKept(s[..|s| - 3]);
    }
  }

  // ----- reading back -----

  function StripCommas(s: string): string {
    if s == "" then "" else (if s[0] == ',' then "" else [s[0]]) + StripCommas(s[1..])
  }

  lemma {:induction false} StripAppend(s: string, t: string)
    ensures StripCommas(s + t) == StripCommas(s) + StripCommas(t)
  {
    if s == "" {
      assert s + t == t;
    } else {
      assert (s + t)[0] == s[0] && (s + t)[1..] == s[1..] + t;
      StripAppend(s[1..], t);
    }
  }

  lemma {:induction false} StripKeepsDigits(s: string)
    requires AllDigits(s)
    ensures StripCommas(s) == s
  {
    if s != "" {
      StripKeepsDigits(s[1..]);
    }
  }

  lemma StripGroup(s: string, group: string)
    requires AllDigits(group)
    ensures StripCommas(s + "," + group) == StripCommas(s) + group
  {
    StripKeepsDigits(group);
    StripAppend(s + ",", group);
    StripAppend(s, ",");
    assert StripCommas(s) + "" == StripCommas(s);
  }

  lemma {:induction false} StripUndoesThrees(s: string)
    requires AllDigits(s)
    ensures StripCommas(InThrees(s)) == s
  {
    if |s| <= 3 {
      StripKeepsDigits(s);
    } else {
      StripUndoesThrees(s[..|s| - 3]);
      StripGroup(InThrees(s[..|s| - 3]), s[|s| - 3..]);
    }
  }

  /** A comma stands exactly three characters from the right end, and then every four. */
  predicate CommaPlace(r: string, k: int)
    requires 0 <= k < |r|
  {
    r[|r| - 1 - k] == ',' <==> k % 4 == 3
  }

  predicate Spaced(r: string) {
    forall k :: 0 <= k < |r| ==> CommaPlace(r, k)
  }

  lemma SpacedGroup(q: string, group: string)
    requires Spaced(q) && AllDigits(group) && |group| == 3
    ensures Spaced(q + "," + group)
  {
    var r := q + "," + group;
    forall k | 0 <= k < |r| ensures CommaPlace(r, k) {
      if k < 3 {
        assert r[|r| - 1 - k] == group[2 - k];
        assert IsDigit(group[2 - k]);
      } else if k > 3 {
        assert r[|r| - 1 - k] == q[|q| - 1 - (k - 4)];
        assert CommaPlace(q, k - 4);
      }
    }
  }

  lemma ShortIsSpaced(s: string)
    requires AllDigits(s) && |s| <= 3
    ensures Spaced(s)
  {
    forall k | 0 <= k < |s| ensures CommaPlace(s, k) {
      assert IsDigit(s[|s| - 1 - k]);
    }
  }

  /** Counted from the right, every fourth character is a comma and no other is; none comes first. */
  lemma {:induction false} CommasAreEveryFourth(s: string)
    requires AllDigits(s) && s != ""
    ensures Spaced(InThrees(s)) && InThrees(s) != "" && IsDigit(InThrees(s)[0])
  {
    FirstIsKept(s);
    if |s| <= 3 {
      ShortIsSpaced(s);
    } else {
      CommasAreEveryFourth(s[..|s| - 3]);
      SpacedGroup(InThrees(s[..|s| - 3]), s[|s| - 3..]);
    }
  }

  function ReadNumber(s: string): int {
    if s != "" && s[0] == '-' then -ValueOf(StripCommas(s[1..])) else ValueOf(StripCommas(s))
  }

  /** Dropping the commas reads the number back, so different numbers are written differently. */
  lemma NumberReadsBack(v: int)
    ensures ReadNumber(Grouped(v)) == v
  {
    var n := if v < 0 then -v else v;
    DigitsReadBack(n);
    StripUndoesThrees(Digits(n));
    FirstIsKept(Digits(n));
    assert v < 0 ==> Grouped(v)[1..] == InThrees(Digits(n));
  }
}

/** Card values with two decimals; a value is its number of hundredths. */
module ScaledNumbers {
  import opened Basics
  import opened Decimals
  import opened Numbers
  import opened Strings

  /** `f64::round`: halves go away from zero. */
  function Round(x: real): int {
    if x < 0.0 then -((-x + 0.5).Floor) else (x + 0.5).Floor
  }

  function Truncated(hundredths: int): int {
    if hundredths < 0 then -(-hundredths / 100) else hundredths / 100
  }

  function Decimals2(hundredths: int): string
    requires hundredths % 100 != 0
  {
    var n := (if hundredths < 0 then -hundredths else hundredths) % 100;
    if n % 10 == 0 then [Numeral(n / 10)] else [Numeral(n / 10), Numeral(n % 10)]
  }

  function Numeral(n: int): char
    requires 0 <= n < 10
  {
    ('0' as int + n) as char
  }

  function Saturate(v: int): int {
    if v < I64_MIN then I64_MIN else if v > I64_MAX then I64_MAX else v
  }

  /**
   The formatter: a whole value is cast, which saturates; otherwise the whole part is parsed from the
   text, where "-0" reads as 0 and a number out of range counts as 0.
  */
  function FormatHundredths(hundredths: int): string {
    if hundredths % 100 == 0 then Grouped(Saturate(hundredths / 100))
    else
      var whole := Truncated(hundredths);
      Grouped(if IsI64(whole) then whole else 0) + "." + Decimals2(hundredths)
  }

  function FormatScaledNumber(value: real): string {
    FormatHundredths(Round(value * 100.0))
  }

  function Hundredths(decimals: string): int {
    if |decimals| == 0 then 0
    else if |decimals| == 1 then 10 * DigitValue(decimals[0])
    else 10 * DigitValue(decimals[0]) + DigitValue(decimals[1])
  }

  /** The hundredths an unsigned formatted number stands for. */
  function ReadUnsigned(s: string): int {
    var dot := Find(s, '.');
    100 * ValueOf(StripCommas(s[..dot])) + (if dot < |s| then Hundredths(s[dot + 1..]) else 0)
  }

  /** Reading a formatted number back, in hundredths. */
  function ReadHundredths(s: string): int {
    if s != "" && s[0] == '-' then -ReadUnsigned(s[1..]) else ReadUnsigned(s)
  }

  lemma {:induction false} ThreesAreDigitsAndCommas(s: string)
    requires AllDigits(s)
    ensures forall k :: 0 <= k < |InThrees(s)| ==> InThrees(s)[k] == ',' || IsDigit(InThrees(s)[k])
  {
    if |s| > 3 {
      ThreesAreDigitsAndCommas(s[..|s| - 3]);
    }
  }

  function WithDecimals(decimals: string): string {
    if decimals == "" then "" else "." + decimals
  }

  lemma PointIsFound(whole: string, rest: string)
    requires forall k :: 0 <= k < |whole| ==> whole[k] == ',' || IsDigit(whole[k])
    requires rest != "" ==> rest[0] == '.'
    ensures Find(whole + rest, '.') == |whole|
  {
    FindAfter(whole, rest, '.');
  }

  lemma ReadsAroundPoint(whole: string, decimals: string)
    requires forall k :: 0 <= k < |whole| ==> whole[k] == ',' || IsDigit(whole[k])
    ensures ReadUnsigned(whole + WithDecimals(decimals)) == 100 * ValueOf(StripCommas(whole)) + Hundredths(decimals)
  {
    var rest := WithDecimals(decimals);
    PointIsFound(whole, rest);
    assert (whole + rest)[..|whole|] == whole;
    assert decimals != "" ==> (whole + rest)[|whole| + 1..] == decimals;
  }

  lemma UnsignedReads(n: nat, decimals: string)
    ensures var s := InThrees(Digits(n)) + WithDecimals(decimals);
            s != "" && s[0] != '-' && ReadUnsigned(s) == 100 * n + Hundredths(decimals)
  {
    DigitsReadBack(n);
    StripUndoesThrees(Digits(n));
    FirstIsKept(Digits(n));
    ThreesAreDigitsAndCommas(Digits(n));
    ReadsAroundPoint(InThrees(Digits(n)), decimals);
  }

  lemma SignedReads(threes: string, rest: string)
    ensures ReadHundredths("-" + threes + rest) == -ReadUnsigned(threes + rest)
  {
    assert ("-" + threes + rest)[1..] == threes + rest;
  }

  /** Reading a grouped whole part, with or without decimals. */
  lemma ReadsParts(v: int, decimals: string)
    ensures ReadHundredths(Grouped(v) + WithDecimals(decimals))
         == 100 * v + (if v < 0 then -Hundredths(decimals) else Hundredths(decimals))
  {
    if v < 0 {
      UnsignedReads(-v, decimals);
      SignedReads(InThrees(Digits(-v)), WithDecimals(decimals));
    } else {
      UnsignedReads(v, decimals);
    }
  }

  lemma DecimalsRead(hundredths: int)
    requires hundredths % 100 != 0
    ensures Decimals2(hundredths) != ""
    ensures Hundredths(Decimals2(hundredths)) == (if hundredths < 0 then -hundredths else hundredths) % 100
  {
  }

  lemma Split100(h: int)
    ensures h >= 0 ==> h == 100 * Truncated(h) + h % 100
    ensures h < 0 ==> h == 100 * Truncated(h) - (-h) % 100
    ensures h % 100 == 0 ==> Truncated(h) == h / 100 && h == 100 * (h / 100)
    ensures h % 100 != 0 ==> (if h < 0 then -h else h) % 100 != 0
    ensures -100 < h < 100 ==> Truncated(h) == 0
  {
  }

  lemma EmptyTail(s: string)
    ensures s + "" == s
  {
  }

  lemma WholeReads(h: int)
    requires h % 100 == 0
    ensures ReadHundredths(FormatHundredths(h)) == 100 * Saturate(h / 100)
  {
    var v := Saturate(h / 100);
    ReadsParts(v, "");
    EmptyTail(Grouped(v));
  }

  lemma FractionReads(h: int)
    requires h % 100 != 0
    ensures var kept := if IsI64(Truncated(h)) then Truncated(h) else 0;
            var part := (if h < 0 then -h else h) % 100;
            ReadHundredths(FormatHundredths(h)) == 100 * kept + (if kept < 0 then -part else part)
  {
    var kept := if IsI64(Truncated(h)) then Truncated(h) else 0;
    var decimals := Decimals2(h);
    DecimalsRead(h);
    ReadsParts(kept, decimals);
    assert Grouped(kept) + "." + decimals == Grouped(kept) + ("." + decimals);
  }

  /**
   A formatted value reads back as itself exactly when its whole part fits in 64 bits and it is not
   strictly between -1 and 0; there the minus sign is lost and its negation is read.
  */
  lemma FormattedReadsBack(h: int)
    ensures ReadHundredths(FormatHundredths(h)) == h <==> IsI64(Truncated(h)) && !(-100 < h < 0)
    ensures -100 < h < 0 ==> ReadHundredths(FormatHundredths(h)) == -h
  {
    Split100(h);
    if h % 100 == 0 {
      WholeReads(h);
    } else {
      FractionReads(h);
    }
  }

  /** Rounding goes to the nearest integer, and which side of an integer it lands on is decided by halves. */
  lemma RoundIsNearest(x: real, n: int)
    ensures -0.5 <= x - Round(x) as real <= 0.5
    ensures n >= 0 ==> (Round(x) <= n <==> x < n as real + 0.5)
    ensures n <= 0 ==> (Round(x) >= n <==> x > n as real - 0.5)
    ensures n < 0 ==> (Round(x) <= n <==> x <= n as real + 0.5)
  {
  }

  /** The values whose minus sign is lost: those that round to a fraction strictly between -1 and 0. */
  predicate LosesSign(value: real) {
    -0.995 < value <= -0.005
  }

  /** The values whose rounded whole part fits in 64 bits. */
  predicate FitsI64(value: real) {
    I64_MIN as real - 0.995 < value < I64_MAX as real + 0.995
  }

  lemma SignIsLost(value: real)
    ensures -100 < Round(value * 100.0) < 0 <==> LosesSign(value)
  {
    RoundIsNearest(value * 100.0, -99);
    RoundIsNearest(value * 100.0, -1);
  }

  lemma WholePartFits(value: real)
    ensures IsI64(Truncated(Round(value * 100.0))) <==> FitsI64(value)
  {
    var h := Round(value * 100.0);
    RoundIsNearest(value * 100.0, 100 * I64_MIN - 99);
    RoundIsNearest(value * 100.0, 100 * I64_MAX + 99);
    assert IsI64(Truncated(h)) <==> 100 * I64_MIN - 99 <= h <= 100 * I64_MAX + 99;
  }

  /**
   In terms of the argument: the text of a value reads back as the value's nearest hundredth exactly
   when the whole part fits in 64 bits and the sign is not lost; where it is, the negation is read.
  */
  lemma ScaledNumberReadsBack(value: real)
    ensures ReadHundredths(FormatScaledNumber(value)) == Round(value * 100.0) <==> FitsI64(value) && !LosesSign(value)
    ensures LosesSign(value) ==> ReadHundredths(FormatScaledNumber(value)) == -Round(value * 100.0)
    ensures -0.005 <= value - Round(value * 100.0) as real / 100.0 <= 0.005
  {
    FormattedReadsBack(Round(value * 100.0));
    SignIsLost(value);
    WholePartFits(value);
    RoundIsNearest(value * 100.0, 0);
  }

  lemma DecimalsAreShort(hundredths: int)
    requires hundredths % 100 != 0
    ensures var d := Decimals2(hundredths); 1 <= |d| <= 2 && AllDigits(d) && d[|d| - 1] != '0'
  {
  }

  lemma PointOfText(v: int, decimals: string)
    requires AllDigits(decimals)
    ensures var whole := Grouped(v);
            Lacks(whole, '.') && Find(whole + "." + decimals, '.') == |whole| && Find(whole, '.') == |whole|
  {
    var n := if v < 0 then -v else v;
    DigitsReadBack(n);
    ThreesAreDigitsAndCommas(Digits(n));
    var whole := Grouped(v);
    assert whole + "" == whole && whole + "." + decimals == whole + ("." + decimals);
    FindAfter(whole, "", '.');
    FindAfter(whole, "." + decimals, '.');
  }

  /** A point is followed by one or two decimals, the last of them not zero. */
  lemma NoTrailingZeros(h: int)
    ensures var s := FormatHundredths(h);
            var dot := Find(s, '.');
            dot < |s| ==> h % 100 != 0 && |s| - 3 <= dot <= |s| - 2 && s[|s| - 1] != '0'
  {
    if h % 100 == 0 {
      PointOfText(Saturate(h / 100), "");
    } else {
      DecimalsAreShort(h);
      PointOfText(if IsI64(Truncated(h)) then Truncated(h) else 0, Decimals2(h));
    }
  }

  /** Out of range a whole value reads as the nearest 64-bit integer, and any other loses its whole part. */
  lemma OutOfRangeReads(h: int)
    requires !IsI64(Truncated(h))
    ensures h % 100 == 0 && h > 0 ==> ReadHundredths(FormatHundredths(h)) == 100 * I64_MAX
    ensures h % 100 == 0 && h < 0 ==> ReadHundredths(FormatHundredths(h)) == 100 * I64_MIN
    ensures h % 100 != 0 ==> ReadHundredths(FormatHundredths(h)) == (if h < 0 then -h else h) % 100
  {
    Split100(h);
    if h % 100 == 0 {
      WholeReads(h);
    } else {
      FractionReads(h);
    }
  }
}
