/** The text encoders of the image template: HTML escaping and percent encoding. */
module HtmlText {
  import opened Strings

  // ----- escaping -----

  function Replace(s: string, c: char, sub: string): string {
    if s == "" then "" else (if s[0] == c then sub else [s[0]]) + Replace(s[1..], c, sub)
  }

  /** The five replacements, one after the other over the whole text. */
  function EscapeHtml(s: string): string {
    Replace(Replace(Replace(Replace(Replace(s, '&', "&amp;"), '<', "&lt;"), '>', "&gt;"), '"', "&quot;"), '\'', "&#39;")
  }

  /** What one character stands for in a single pass. */
  function Entity(c: char): string {
    if c == '&' then "&amp;" else if c == '<' then "&lt;" else if c == '>' then "&gt;"
    else if c == '"' then "&quot;" else if c == '\'' then "&#39;" else [c]
  }

  function Escaped(s: string): string {
    if s == "" then "" else Entity(s[0]) + Escaped(s[1..])
  }

  lemma {:induction false} ReplaceAppend(s: string, t: string, c: char, sub: string)
    ensures Replace(s + t, c, sub) == Replace(s, c, sub) + Replace(t, c, sub)
  {
    if s == "" {
      assert s + t == t;
    } else {
      assert (s + t)[0] == s[0] && (s + t)[1..] == s[1..] + t;
      ReplaceAppend(s[1..], t, c, sub);
    }
  }

  lemma {:induction false} ReplaceAbsent(s: string, c: char, sub: string)
    requires Lacks(s, c)
    ensures Replace(s, c, sub) == s
  {
    if s != "" {
      ReplaceAbsent(s[1..], c, sub);
    }
  }

  lemma ReplaceOne(c: char, d: char, sub: string)
    ensures Replace([c], d, sub) == if c == d then sub else [c]
  {
    assert [c][1..] == "";
    assert sub + "" == sub;
  }

  function From2(s: string): string {
    Replace(Replace(Replace(Replace(s, '<', "&lt;"), '>', "&gt;"), '"', "&quot;"), '\'', "&#39;")
  }

  function From3(s: string): string {
    Replace(Replace(Replace(s, '>', "&gt;"), '"', "&quot;"), '\'', "&#39;")
  }

  function From4(s: string): string {
    Replace(Replace(s, '"', "&quot;"), '\'', "&#39;")
  }

  predicate NoSpecials(s: string) {
    Lacks(s, '<') && Lacks(s, '>') && Lacks(s, '"') && Lacks(s, '\'')
  }

  /** The later replacements leave alone what the earlier ones wrote. */
  lemma LaterPassesKeep(s: string)
    requires NoSpecials(s)
    ensures From2(s) == s && From3(s) == s && From4(s) == s && Replace(s, '\'', "&#39;") == s
  {
    ReplaceAbsent(s, '<', "&lt;");
    ReplaceAbsent(s, '>', "&gt;");
    ReplaceAbsent(s, '"', "&quot;");
    ReplaceAbsent(s, '\'', "&#39;");
  }

  lemma OneCharacter(c: char)
    ensures EscapeHtml([c]) == Entity(c)
  {
    ReplaceOne(c, '&', "&amp;");
    if c == '&' {
      LaterPassesKeep("&amp;");
    } else {
      ReplaceOne(c, '<', "&lt;");
      if c == '<' {
        LaterPassesKeep("&lt;");
      } else {
        ReplaceOne(c, '>', "&gt;");
        if c == '>' {
          LaterPassesKeep("&gt;");
        } else {
          ReplaceOne(c, '"', "&quot;");
          if c == '"' {
            LaterPassesKeep("&quot;");
          } else {
            ReplaceOne(c, '\'', "&#39;");
          }
        }
      }
    }
  }

  lemma EscapeAppend(s: string, t: string)
    ensures EscapeHtml(s + t) == EscapeHtml(s) + EscapeHtml(t)
  {
    ReplaceAppend(s, t, '&', "&amp;");
    var s1, t1 := Replace(s, '&', "&amp;"), Replace(t, '&', "&amp;");
    ReplaceAppend(s1, t1, '<', "&lt;");
    var s2, t2 := Replace(s1, '<', "&lt;"), Replace(t1, '<', "&lt;");
    ReplaceAppend(s2, t2, '>', "&gt;");
    var s3, t3 := Replace(s2, '>', "&gt;"), Replace(t2, '>', "&gt;");
    ReplaceAppend(s3, t3, '"', "&quot;");
    ReplaceAppend(Replace(s3, '"', "&quot;"), Replace(t3, '"', "&quot;"), '\'', "&#39;");
  }

  /** The chain of replacements is a single pass: no replacement touches another's output. */
  lemma {:induction false} EscapeIsOnePass(s: string)
    ensures EscapeHtml(s) == Escaped(s)
  {
    if s != "" {
      EscapeAppend([s[0]], s[1..]);
      OneCharacter(s[0]);
      EscapeIsOnePass(s[1..]);
      assert s == [s[0]] + s[1..];
    }
  }

  lemma EntityHasNoSpecials(c: char)
    ensures NoSpecials(Entity(c))
  {
  }

  lemma NoSpecialsAppend(s: string, t: string)
    requires NoSpecials(s) && NoSpecials(t)
    ensures NoSpecials(s + t)
  {
  }

  lemma {:induction false} OnePassHasNoSpecials(s: string)
    ensures NoSpecials(Escaped(s))
  {
    if s != "" {
      OnePassHasNoSpecials(s[1..]);
      EntityHasNoSpecials(s[0]);
      NoSpecialsAppend(Entity(s[0]), Escaped(s[1..]));
    }
  }

  /** Nothing escaped can open a tag or close an attribute. */
  lemma EscapedHasNoSpecials(s: string)
    ensures NoSpecials(EscapeHtml(s))
  {
    EscapeIsOnePass(s);
    OnePassHasNoSpecials(s);
  }

  // ----- decoding -----

  /** The character references the encoder uses, decoded; any other text is kept. */
  function Unescape(s: string): string {
    if s == "" then ""
    else if "&amp;" <= s then "&" + Unescape(s[5..])
    else if "&lt;" <= s then "<" + Unescape(s[4..])
    else if "&gt;" <= s then ">" + Unescape(s[4..])
    else if "&quot;" <= s then "\"" + Unescape(s[6..])
    else if "&#39;" <= s then "'" + Unescape(s[5..])
    else [s[0]] + Unescape(s[1..])
  }

  lemma UnescapeOne(c: char, rest: string)
    ensures Unescape(Entity(c) + rest) == [c] + Unescape(rest)
  {
    var s := Entity(c) + rest;
    assert s[|Entity(c)|..] == rest;
    if c != '&' && c != '<' && c != '>' && c != '"' && c != '\'' {
      assert s[0] == c;
    } else {
      assert s[1] == Entity(c)[1] && s[2] == Entity(c)[2];
    }
  }

  /** Decoding gives the text back, so nothing is lost or confused. */
  lemma {:induction false} UnescapeUndoesEscape(s: string)
    ensures Unescape(EscapeHtml(s)) == s
  {
    EscapeIsOnePass(s);
    if s != "" {
      UnescapeOne(s[0], Escaped(s[1..]));
      EscapeIsOnePass(s[1..]);
      UnescapeUndoesEscape(s[1..]);
    }
  }
}

module UrlText {
  import opened Basics

  // ----- UTF-8 -----

  function Continuation(n: int): byte {
    (0x80 + n % 64) as byte
  }

  /** The UTF-8 form of a scalar value, six bits to a byte from the right. */
  function Utf8Char(c: char): Bytes {
    var n := c as int;
    if n < 0x80 then [n as byte]
    else if n < 0x800 then [(0xC0 + n / 64) as byte, Continuation(n)]
    else if n < 0x1_0000 then [(0xE0 + n / 64 / 64) as byte, Continuation(n / 64), Continuation(n)]
    else
      [(0xF0 + n / 64 / 64 / 64) as byte, Continuation(n / 64 / 64), Continuation(n / 64), Continuation(n)]
  }

  function Utf8(s: string): Bytes {
    if s == "" then [] else Utf8Char(s[0]) + Utf8(s[1..])
  }

  /** How many bytes the character starting with this one takes. */
  function Width(lead: byte): nat {
    if lead < 0x80 then 1 else if lead < 0xE0 then 2 else if lead < 0xF0 then 3 else 4
  }

  /** The bits of the bytes after the first, put behind `high`. */
  function Gather(high: int, rest: Bytes): int
    decreases |rest|
  {
    if rest == [] then high else Gather(64 * high + (rest[0] as int - 0x80), rest[1..])
  }

  function ScalarOf(b: Bytes): int
    requires b != []
  {
    var mark := if b[0] < 0x80 then 0 else if b[0] < 0xE0 then 0xC0 else if b[0] < 0xF0 then 0xE0 else 0xF0;
    Gather(b[0] as int - mark, b[1..])
  }

  predicate IsScalar(n: int) {
    0 <= n < 0xD800 || 0xE000 <= n < 0x11_0000
  }

  function DecodeUtf8(b: Bytes): Option<string>
    decreases |b|
  {
    if b == [] then Some("")
    else if |b| < Width(b[0]) then None
    else
      var n := ScalarOf(b[..Width(b[0])]);
      var rest := DecodeUtf8(b[Width(b[0])..]);
      if !IsScalar(n) || rest.None? then None else Some([n as char] + rest.value)
  }

  lemma GatherOne(high: int, n: int, rest: Bytes)
    requires high == n / 64
    ensures Gather(high, [Continuation(n)] + rest) == Gather(n, rest)
  {
    assert ([Continuation(n)] + rest)[1..] == rest;
  }

  lemma CharReadsBack(c: char)
    ensures var b := Utf8Char(c); |b| == Width(b[0]) && ScalarOf(b) == c as int && IsScalar(c as int)
  {
    var n := c as int;
    var b := Utf8Char(c);
    if n < 0x80 {
      assert b[1..] == [];
    } else {
      GatherOne(n / 64, n, []);
      if n < 0x800 {
        assert b[1..] == [Continuation(n)] + [];
      } else {
        GatherOne(n / 64 / 64, n / 64, [Continuation(n)]);
        if n < 0x1_0000 {
          assert b[1..] == [Continuation(n / 64)] + [Continuation(n)];
        } else {
          GatherOne(n / 64 / 64 / 64, n / 64 / 64, [Continuation(n / 64), Continuation(n)]);
          assert b[1..] == [Continuation(n / 64 / 64)] + [Continuation(n / 64), Continuation(n)];
          assert [Continuation(n / 64)] + [Continuation(n)] == [Continuation(n / 64), Continuation(n)];
        }
      }
    }
  }

  lemma CharFirst(c: char, rest: Bytes)
    requires DecodeUtf8(rest).Some?
    ensures DecodeUtf8(Utf8Char(c) + rest) == Some([c] + DecodeUtf8(rest).value)
  {
    CharReadsBack(c);
    var b := Utf8Char(c);
    assert (b + rest)[..|b|] == b && (b + rest)[|b|..] == rest;
  }

  lemma {:induction false} Utf8ReadsBack(s: string)
    ensures DecodeUtf8(Utf8(s)) == Some(s)
  {
    if s != "" {
      Utf8ReadsBack(s[1..]);
      CharFirst(s[0], Utf8(s[1..]));
      assert s == [s[0]] + s[1..];
    }
  }

  // ----- percent encoding -----

  predicate Unreserved(c: char) {
    'A' <= c <= 'Z' || 'a' <= c <= 'z' || '0' <= c <= '9' || c == '-' || c == '.' || c == '_' || c == '~'
  }

  function HexDigit(n: int): char
    requires 0 <= n < 16
  {
    if n < 10 then ('0' as int + n) as char else ('A' as int + n - 10) as char
  }

  function Percent(b: byte): string {
    ['%', HexDigit(b as int / 16), HexDigit(b as int % 16)]
  }

  /** RFC 3986, byte by byte: an unreserved character stands for itself, any other byte is escaped. */
  function EncodeByte(b: byte): string {
    if Unreserved(b as int as char) then [b as int as char] else Percent(b)
  }

  function EncodeBytes(b: Bytes): string {
    if b == [] then "" else EncodeByte(b[0]) + EncodeBytes(b[1..])
  }

  lemma {:induction false} EncodeAppend(a: Bytes, b: Bytes)
    ensures EncodeBytes(a + b) == EncodeBytes(a) + EncodeBytes(b)
  {
    if a == [] {
      assert a + b == b;
    } else {
      assert (a + b)[0] == a[0] && (a + b)[1..] == a[1..] + b;
      EncodeAppend(a[1..], b);
    }
  }

  function EscapeBytes(b: Bytes): string {
    if b == [] then "" else Percent(b[0]) + EscapeBytes(b[1..])
  }

  lemma {:induction false} HighBytesAreEscaped(b: Bytes)
    requires forall i :: 0 <= i < |b| ==> b[i] >= 0x80
    ensures EncodeBytes(b) == EscapeBytes(b)
  {
    if b != [] {
      HighBytesAreEscaped(b[1..]);
    }
  }

  lemma CharIsEncoded(c: char)
    ensures EncodeBytes(Utf8Char(c)) == if Unreserved(c) then [c] else EscapeBytes(Utf8Char(c))
  {
    var b := Utf8Char(c);
    if c as int < 0x80 {
      assert b[1..] == [];
      assert b[0] as int as char == c;
    } else {
      HighBytesAreEscaped(b);
    }
  }

  lemma {:induction false} Utf8Append(s: string, t: string)
    ensures Utf8(s + t) == Utf8(s) + Utf8(t)
  {
    if s == "" {
      assert s + t == t;
    } else {
      assert (s + t)[0] == s[0] && (s + t)[1..] == s[1..] + t;
      Utf8Append(s[1..], t);
    }
  }

  lemma OneMoreCharacter(front: string, c: char)
    ensures EncodeBytes(Utf8(front + [c]))
         == EncodeBytes(Utf8(front)) + (if Unreserved(c) then [c] else EscapeBytes(Utf8Char(c)))
  {
    Utf8Append(front, [c]);
    assert [c][1..] == "";
    assert Utf8([c]) == Utf8Char(c) + [] == Utf8Char(c);
    EncodeAppend(Utf8(front), Utf8Char(c));
    CharIsEncoded(c);
  }

  lemma SpecialCases()
    ensures EscapeBytes(Utf8Char(' ')) == "%20" && EscapeBytes(Utf8Char('\n')) == "%0A"
  {
    assert Utf8Char(' ')[1..] == [] && Utf8Char('\n')[1..] == [];
  }

  /** The loop over characters does what the standard says of bytes. */
  method UrlEncode(s: string) returns (r: string)
    ensures r == EncodeBytes(Utf8(s))
  {
    r := "";
    for i := 0 to |s|
      invariant r == EncodeBytes(Utf8(s[..i]))
    {
      var c := s[i];
      assert s[..i + 1] == s[..i] + [c];
      OneMoreCharacter(s[..i], c);
      SpecialCases();
      if Unreserved(c) {
        r := r + [c];
      } else if c == ' ' {
        r := r + "%20";
      } else if c == '\n' {
        r := r + "%0A";
      } else {
        var bytes := EscapeAll(Utf8Char(c));
        r := r + bytes;
      }
    }
    assert s[..|s|] == s;
  }

  method EscapeAll(b: Bytes) returns (r: string)
    ensures r == EscapeBytes(b)
  {
    r := "";
    for i := 0 to |b|
      invariant r + EscapeBytes(b[i..]) == EscapeBytes(b)
    {
      r := r + Percent(b[i]);
    }
  }

  // ----- decoding -----

  function HexValue(c: char): Option<int> {
    if '0' <= c <= '9' then Some(c as int - '0' as int)
    else if 'A' <= c <= 'F' then Some(c as int - 'A' as int + 10)
    else None
  }

  function DecodeBytes(s: string): Option<Bytes> {
    if s == "" then Some([])
    else if s[0] == '%' then
      if |s| < 3 || HexValue(s[1]).None? || HexValue(s[2]).None? then None
      else
        var rest := DecodeBytes(s[3..]);
        if rest.None? then None else Some([(16 * HexValue(s[1]).value + HexValue(s[2]).value) as byte] + rest.value)
    else
      var rest := DecodeBytes(s[1..]);
      if rest.None? || s[0] as int >= 256 then None else Some([s[0] as int as byte] + rest.value)
  }

  lemma HexReadsBack(n: int)
    requires 0 <= n < 16
    ensures HexValue(HexDigit(n)) == Some(n)
  {
  }

  lemma PercentReadsBack(b: byte, rest: string)
    requires DecodeBytes(rest).Some?
    ensures DecodeBytes(Percent(b) + rest) == Some([b] + DecodeBytes(rest).value)
  {
    HexReadsBack(b as int / 16);
    HexReadsBack(b as int % 16);
    assert (Percent(b) + rest)[3..] == rest;
  }

  lemma ByteReadsBack(b: byte, rest: string)
    requires DecodeBytes(rest).Some?
    ensures DecodeBytes(EncodeByte(b) + rest) == Some([b] + DecodeBytes(rest).value)
  {
    if Unreserved(b as int as char) {
      assert ([b as int as char] + rest)[1..] == rest;
    } else {
      PercentReadsBack(b, rest);
    }
  }

  lemma {:induction false} BytesReadBack(b: Bytes)
    ensures DecodeBytes(EncodeBytes(b)) == Some(b)
  {
    if b != [] {
      BytesReadBack(b[1..]);
      ByteReadsBack(b[0], EncodeBytes(b[1..]));
      assert b == [b[0]] + b[1..];
    }
  }

  /** Decoding the escapes and then the UTF-8 gives the text back. */
  lemma UrlReadsBack(s: string)
    ensures DecodeBytes(EncodeBytes(Utf8(s))) == Some(Utf8(s)) && DecodeUtf8(Utf8(s)) == Some(s)
  {
    BytesReadBack(Utf8(s));
    Utf8ReadsBack(s);
  }

  /** Only unreserved characters and escapes with upper-case hexadecimal digits come out. */
  predicate WellEscaped(s: string) {
    if s == "" then true
    else if s[0] == '%' then |s| >= 3 && HexValue(s[1]).Some? && HexValue(s[2]).Some? && WellEscaped(s[3..])
    else Unreserved(s[0]) && WellEscaped(s[1..])
  }

  lemma {:induction false} UrlIsWellEscaped(b: Bytes)
    ensures WellEscaped(EncodeBytes(b))
  {
    if b != [] {
      UrlIsWellEscaped(b[1..]);
      var s := EncodeBytes(b);
      assert s[|EncodeByte(b[0])|..] == EncodeBytes(b[1..]);
    }
  }

  const UPPER := "ABCDEFGHIJKLMNOPQRSTUVWXYZ"
  const LOWER := "abcdefghijklmnopqrstuvwxyz"
  const NUMERALS := "0123456789"
  const MARKS := "-._~"
  const HEX := "0123456789ABCDEF"

  lemma UpperIs(c: char)
    ensures c in UPPER <==> 'A' <= c <= 'Z'
  {
    if 'A' <= c <= 'Z' {
      assert UPPER[c as int - 'A' as int] == c;
    }
  }

  lemma LowerIs(c: char)
    ensures c in LOWER <==> 'a' <= c <= 'z'
  {
    if 'a' <= c <= 'z' {
      assert LOWER[c as int - 'a' as int] == c;
    }
  }

  lemma NumeralsAre(c: char)
    ensures c in NUMERALS <==> '0' <= c <= '9'
    ensures c in MARKS <==> c == '-' || c == '.' || c == '_' || c == '~'
  {
    if '0' <= c <= '9' {
      assert NUMERALS[c as int - '0' as int] == c;
    }
    assert MARKS[0] == '-' && MARKS[1] == '.' && MARKS[2] == '_' && MARKS[3] == '~';
  }

  lemma HexIs(n: nat)
    requires n < 16
    ensures HEX[n] == HexDigit(n)
  {
  }

  /** Letters, digits and four marks stand for themselves; every other byte becomes its two hex digits. */
  lemma BytesAsWritten(b: byte, c: char)
    requires c as int == b as int
    ensures EncodeByte(b)
         == if c in UPPER || c in LOWER || c in NUMERALS || c in MARKS then [c]
            else ['%', HEX[b as int / 16], HEX[b as int % 16]]
  {
    UpperIs(c);
    LowerIs(c);
    NumeralsAre(c);
    HexIs(b as int / 16);
    HexIs(b as int % 16);
  }
}
