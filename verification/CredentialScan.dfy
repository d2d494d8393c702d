/**
 The chunked credential scan of Git blobs.

 The pattern is a small regular expression over bytes, matched without regard to ASCII case.  A
 search succeeds when some part of the text is in the expression's language; Python's backtracking
 decides only which match is reported, never whether there is one.
*/
module CredentialScan {
  import opened Basics

  // ----- regular expressions -----

  datatype Regex =
    | Lit(text: string)
    | Cls(members: set<char>)
    | Cat(first: Regex, second: Regex)
    | Alt(left: Regex, right: Regex)
    | Opt(body: Regex)
    | Rep(members: set<char>, min: nat, unbounded: bool)

  /** ASCII lower case; patterns are written in lower case. */
  function Fold(b: byte): char {
    var n := b as int;
    if 'A' as int <= n <= 'Z' as int then (n + 32) as char else n as char
  }

  predicate AllIn(s: Bytes, members: set<char>) {
    forall i :: 0 <= i < |s| ==> Fold(s[i]) in members
  }

  predicate Matches(r: Regex, s: Bytes)
    decreases r
  {
    match r
    case Lit(text) => |s| == |text| && forall i :: 0 <= i < |s| ==> Fold(s[i]) == text[i]
    case Cls(members) => |s| == 1 && Fold(s[0]) in members
    case Cat(a, b) => exists i :: 0 <= i <= |s| && Matches(a, s[..i]) && Matches(b, s[i..])
    case Alt(a, b) => Matches(a, s) || Matches(b, s)
    case Opt(a) => s == [] || Matches(a, s)
    case Rep(members, min, unbounded) =>
      |s| >= min && (|s| == min || unbounded) && AllIn(s, members)
  }

  predicate FoundAt(r: Regex, s: Bytes, i: int, j: int) {
    0 <= i <= j <= |s| && Matches(r, s[i..j])
  }

  predicate Found(r: Regex, s: Bytes) {
    exists i, j :: 0 <= i <= |s| && 0 <= j <= |s| && FoundAt(r, s, i, j)
  }

  // ----- how long a match has to be -----

  /** The longest text in the language, when there is one. */
  function MaxLen(r: Regex): Option<nat>
    decreases r
  {
    match r
    case Lit(text) => Some(|text|)
    case Cls(_) => Some(1)
    case Cat(a, b) =>
      (match (MaxLen(a), MaxLen(b))
       case (Some(m), Some(n)) => Some(m + n)
       case _ => None)
    case Alt(a, b) =>
      (match (MaxLen(a), MaxLen(b))
       case (Some(m), Some(n)) => Some(Max(m, n))
       case _ => None)
    case Opt(a) => MaxLen(a)
    case Rep(_, min, unbounded) => if unbounded then None else Some(min)
  }

  /** A length within which every match has a prefix that also matches; none if a repetition is followed. */
  function Core(r: Regex): Option<nat>
    decreases r
  {
    match r
    case Cat(a, b) =>
      (match (MaxLen(a), Core(b))
       case (Some(m), Some(n)) => Some(m + n)
       case _ => None)
    case Alt(a, b) =>
      (match (Core(a), Core(b))
       case (Some(m), Some(n)) => Some(Max(m, n))
       case _ => None)
    case Opt(a) => Some(0)
    case Rep(_, min, _) => Some(min)
    case _ => MaxLen(r)
  }

  lemma {:induction false} MatchIsAtMostMaxLen(r: Regex, s: Bytes)
    requires Matches(r, s) && MaxLen(r).Some?
    ensures |s| <= MaxLen(r).value
    decreases r
  {
    match r
    case Cat(a, b) =>
      var i :| 0 <= i <= |s| && Matches(a, s[..i]) && Matches(b, s[i..]);
      MatchIsAtMostMaxLen(a, s[..i]);
      MatchIsAtMostMaxLen(b, s[i..]);
    case Alt(a, b) =>
      if Matches(a, s) {
        MatchIsAtMostMaxLen(a, s);
      } else {
        MatchIsAtMostMaxLen(b, s);
      }
    case Opt(a) =>
      if s != [] {
        MatchIsAtMostMaxLen(a, s);
      }
    case _ =>
  }

  function MinLen(r: Regex): nat
    decreases r
  {
    match r
    case Lit(text) => |text|
    case Cls(_) => 1
    case Cat(a, b) => MinLen(a) + MinLen(b)
    case Alt(a, b) => Min(MinLen(a), MinLen(b))
    case Opt(a) => 0
    case Rep(_, min, _) => min
  }

  lemma {:induction false} MatchIsAtLeastMinLen(r: Regex, s: Bytes)
    requires Matches(r, s)
    ensures |s| >= MinLen(r)
    decreases r
  {
    match r
    case Cat(a, b) =>
      var i :| 0 <= i <= |s| && Matches(a, s[..i]) && Matches(b, s[i..]);
      MatchIsAtLeastMinLen(a, s[..i]);
      MatchIsAtLeastMinLen(b, s[i..]);
    case Alt(a, b) =>
      if Matches(a, s) {
        MatchIsAtLeastMinLen(a, s);
      } else {
        MatchIsAtLeastMinLen(b, s);
      }
    case _ =>
  }

  /** Every match starts with a match of at most `Core` bytes. */
  lemma {:induction false} MatchHasShortCore(r: Regex, s: Bytes) returns (k: nat)
    requires Matches(r, s) && Core(r).Some?
    ensures k <= |s| && k <= Core(r).value && Matches(r, s[..k])
    decreases r
  {
    match r
    case Cat(a, b) =>
      var i :| 0 <= i <= |s| && Matches(a, s[..i]) && Matches(b, s[i..]);
      MatchIsAtMostMaxLen(a, s[..i]);
      var n := MatchHasShortCore(b, s[i..]);
      k := i + n;
      assert s[..k][..i] == s[..i] && s[..k][i..] == s[i..][..n];
    case Alt(a, b) =>
      if Matches(a, s) {
        k := MatchHasShortCore(a, s);
      } else {
        k := MatchHasShortCore(b, s);
      }
    case Opt(a) => k := 0;
    case Rep(_, min, _) => k := min;
    case _ =>
      k := |s|;
      assert s[..k] == s;
      MatchIsAtMostMaxLen(r, s);
  }

  // ----- the pattern -----

  const LETTERS := set c: char | 'a' <= c <= 'z'
  const DIGITS := set c: char | '0' <= c <= '9'
  const ALNUM := LETTERS + DIGITS

  function PrivateKeyHeader(): Regex {
    Cat(Lit("-----begin "), Cat(Opt(Alt(Lit("rsa "), Alt(Lit("ec "), Lit("openssh ")))), Lit("private key-----")))
  }

  function GithubPat(): Regex {
    Cat(Lit("github_pat_"), Rep(ALNUM + {'_'}, 20, true))
  }

  function GithubToken(): Regex {
    Cat(Lit("gh"), Cat(Cls({'p', 'o', 'u', 's', 'r'}), Cat(Lit("_"), Rep(ALNUM, 30, true))))
  }

  function AwsKey(): Regex {
    Cat(Lit("akia"), Rep(ALNUM, 16, false))
  }

  function SlackToken(): Regex {
    Cat(Lit("xox"), Cat(Cls({'b', 'a', 'p', 'r', 's'}), Cat(Lit("-"), Rep(ALNUM + {'-'}, 20, true))))
  }

  function SecretKey(): Regex {
    Cat(Lit("sk-"), Rep(ALNUM, 32, true))
  }

  /** The six alternatives of the scanner's pattern, lower-cased. */
  function Pattern(): Regex {
    Alt(PrivateKeyHeader(), Alt(GithubPat(), Alt(GithubToken(), Alt(AwsKey(), Alt(SlackToken(), SecretKey())))))
  }

  const TAIL: nat := 128

  lemma HeaderCore()
    ensures Core(PrivateKeyHeader()) == Some(35) && MinLen(PrivateKeyHeader()) == 27
  {
    var kinds := Alt(Lit("rsa "), Alt(Lit("ec "), Lit("openssh ")));
    assert MaxLen(kinds) == Some(8);
    assert MaxLen(Opt(kinds)) == Some(8);
    var rest := Cat(Opt(kinds), Lit("private key-----"));
    assert Core(rest) == Some(24) && MinLen(rest) == 16;
    assert MaxLen(Lit("-----begin ")) == Some(11);
  }

  lemma GithubCores()
    ensures Core(GithubPat()) == Some(31) && MinLen(GithubPat()) == 31
    ensures Core(GithubToken()) == Some(34) && MinLen(GithubToken()) == 34
  {
    var run := Cat(Lit("_"), Rep(ALNUM, 30, true));
    var rest := Cat(Cls({'p', 'o', 'u', 's', 'r'}), run);
    assert Core(run) == Some(31) && MinLen(run) == 31;
    assert Core(rest) == Some(32) && MinLen(rest) == 32;
    assert GithubToken() == Cat(Lit("gh"), rest);
  }

  lemma OtherCores()
    ensures Core(AwsKey()) == Some(20) && MinLen(AwsKey()) == 20
    ensures Core(SlackToken()) == Some(25) && MinLen(SlackToken()) == 25
    ensures Core(SecretKey()) == Some(35) && MinLen(SecretKey()) == 35
  {
    var run := Cat(Lit("-"), Rep(ALNUM + {'-'}, 20, true));
    var rest := Cat(Cls({'b', 'a', 'p', 'r', 's'}), run);
    assert Core(run) == Some(21) && MinLen(run) == 21;
    assert Core(rest) == Some(22) && MinLen(rest) == 22;
    assert SlackToken() == Cat(Lit("xox"), rest);
  }

  lemma {:induction false} AltCore(a: Regex, b: Regex)
    requires Core(a).Some? && Core(b).Some?
    ensures Core(Alt(a, b)) == Some(Max(Core(a).value, Core(b).value))
    ensures MinLen(Alt(a, b)) == Min(MinLen(a), MinLen(b))
  {
  }

  /** No match needs more than 35 bytes, the length of the longest private-key header, and none is empty. */
  lemma PatternCoreIs35()
    ensures Core(Pattern()) == Some(35) && MinLen(Pattern()) == 20
  {
    HeaderCore();
    GithubCores();
    OtherCores();
    var p5 := Alt(SlackToken(), SecretKey());
    var p4 := Alt(AwsKey(), p5);
    var p3 := Alt(GithubToken(), p4);
    var p2 := Alt(GithubPat(), p3);
    AltCore(SlackToken(), SecretKey());
    AltCore(AwsKey(), p5);
    AltCore(GithubToken(), p4);
    AltCore(GithubPat(), p3);
    AltCore(PrivateKeyHeader(), p2);
  }

  lemma NoShortFind(r: Regex, s: Bytes)
    requires |s| < MinLen(r)
    ensures !Found(r, s)
  {
    forall i, j | 0 <= i <= |s| && 0 <= j <= |s| ensures !FoundAt(r, s, i, j) {
      if i <= j && Matches(r, s[i..j]) {
        MatchIsAtLeastMinLen(r, s[i..j]);
      }
    }
  }

  // ----- carrying a tail across chunks -----

  lemma SliceOfSlice<T>(s: seq<T>, lo: nat, hi: nat, i: nat, j: nat)
    requires lo <= hi <= |s| && i <= j <= hi - lo
    ensures s[lo..hi][i..j] == s[lo + i..lo + j]
  {
    var inner, outer := s[lo..hi][i..j], s[lo + i..lo + j];
    assert |inner| == |outer|;
    assert forall k :: 0 <= k < |inner| ==> inner[k] == s[lo..hi][i + k] == s[lo + i + k] == outer[k];
  }

  lemma FoundInPart(r: Regex, s: Bytes, lo: nat, hi: nat)
    requires lo <= hi <= |s| && Found(r, s[lo..hi])
    ensures Found(r, s)
  {
    var i, j :| 0 <= i <= hi - lo && 0 <= j <= hi - lo && FoundAt(r, s[lo..hi], i, j);
    SliceOfSlice(s, lo, hi, i, j);
    assert FoundAt(r, s, lo + i, lo + j);
  }

  /** A find has one of at most `Core` bytes. */
  lemma ShortFind(r: Regex, s: Bytes) returns (i: nat, j: nat)
    requires Core(r).Some? && Found(r, s)
    ensures i <= j <= |s| && FoundAt(r, s, i, j) && j - i <= Core(r).value
  {
    var hi;
    i, hi :| 0 <= i <= |s| && 0 <= hi <= |s| && FoundAt(r, s, i, hi);
    var k := MatchHasShortCore(r, s[i..hi]);
    SliceOfSlice(s, i, hi, 0, k);
    j := i + k;
  }

  lemma FoundInEither(r: Regex, s: Bytes, mid: nat, from: nat)
    requires Core(r).Some? && from <= mid <= |s| && (mid - from >= Core(r).value || from == 0)
    requires Found(r, s)
    ensures Found(r, s[..mid]) || Found(r, s[from..])
  {
    var i, j := ShortFind(r, s);
    if j <= mid {
      SliceOfSlice(s, 0, mid, i, j);
      assert FoundAt(r, s[..mid], i, j);
    } else {
      SliceOfSlice(s, from, |s|, i - from, j - from);
      assert s[from..|s|] == s[from..];
      assert FoundAt(r, s[from..], i - from, j - from);
    }
  }

  /** Searching the new part behind a long enough tail finds what searching everything would. */
  lemma TailSuffices(r: Regex, before: Bytes, part: Bytes)
    requires Core(r).Some? && Core(r).value <= TAIL
    ensures Found(r, before + part) <==> Found(r, before) || Found(r, LastN(before, TAIL) + part)
  {
    var all := before + part;
    var from := |before| - |LastN(before, TAIL)|;
    assert all[..|before|] == before == all[0..|before|];
    assert all[from..] == LastN(before, TAIL) + part == all[from..|all|];
    if Found(r, before) {
      FoundInPart(r, all, 0, |before|);
    }
    if Found(r, LastN(before, TAIL) + part) {
      FoundInPart(r, all, from, |all|);
    }
    if Found(r, all) {
      FoundInEither(r, all, |before|, from);
    }
  }

  lemma TailOfTail(before: Bytes, part: Bytes)
    ensures LastN(LastN(before, TAIL) + part, TAIL) == LastN(before + part, TAIL)
  {
  }

  // ----- the scan -----

  datatype Result = Ok(found: bool) | Truncated

  /** A pipe: a read returns some bytes, up to as many as asked for, and none only at the end. */
  class Stream {
    const data: Bytes
    var pos: nat

    ghost predicate Valid()
      reads this
    {
      pos <= |data|
    }

    constructor (data: Bytes)
      ensures Valid() && this.data == data && pos == 0
    {
      this.data := data;
      pos := 0;
    }

    method Read(n: nat) returns (part: Bytes)
      requires Valid()
      modifies this
      ensures Valid() && pos == old(pos) + |part| && part == data[old(pos)..pos]
      ensures |part| <= n && (part == [] <==> n == 0 || old(pos) == |data|)
    {
      if n == 0 || pos == |data| {
        return [];
      }
      var k: nat :| 0 < k <= n && k <= |data| - pos by {
        assert 0 < 1 <= n && 1 <= |data| - pos;
      }
      part := data[pos..pos + k];
      pos := pos + k;
    }
  }

  /**
   A scan of `length` bytes of `data` from `from` fails only if the stream ends early, or never
   advances because the chunk size is zero; otherwise it stops at `to` having consumed exactly those
   bytes, and reports whether as one text they hold a find.
  */
  predicate ScansExactly(r: Regex, data: Bytes, from: nat, to: nat, length: nat, chunkSize: nat, result: Result) {
    && (result.Truncated? <==> length > 0 && (chunkSize == 0 || |data| - from < length))
    && (result.Ok? ==>
          to == from + length <= |data| && (result.found <==> Found(r, data[from..to])))
  }

  /** The loop, for any expression whose finds are short, any chunk size and however short the reads. */
  method ScanFor(r: Regex, stream: Stream, length: nat, chunkSize: nat) returns (result: Result)
    requires stream.Valid()
    requires Core(r).Some? && Core(r).value <= TAIL && MinLen(r) > 0
    modifies stream
    ensures stream.Valid()
    ensures ScansExactly(r, stream.data, old(stream.pos), stream.pos, length, chunkSize, result)
  {
    var tail: Bytes := [];
    var found := false;
    var left := length;
    ghost var seen: Bytes := [];
    NoShortFind(r, []);
    while left > 0
      invariant 0 <= left && stream.Valid() && |seen| == length - left && stream.pos == old(stream.pos) + |seen|
      invariant seen == stream.data[old(stream.pos)..stream.pos] && (seen != [] ==> chunkSize > 0)
      invariant found <==> Found(r, seen)
      invariant tail == LastN(seen, TAIL)
      decreases left
    {
      var part := stream.Read(if chunkSize <= left then chunkSize else left);
      if part == [] {
        return Truncated;
      }
      left := left - |part|;
      var content := tail + part;
      TailSuffices(r, seen, part);
      TailOfTail(seen, part);
      found := found || Found(r, content);
      tail := LastN(content, TAIL);
      seen := seen + part;
    }
    result := Ok(found);
  }

  /** The chunked scan reports a credential exactly when the whole blob contains one. */
  method CredentialInBlob(stream: Stream, length: nat, chunkSize: nat) returns (result: Result)
    requires stream.Valid()
    modifies stream
    ensures stream.Valid()
    ensures ScansExactly(Pattern(), stream.data, old(stream.pos), stream.pos, length, chunkSize, result)
  {
    PatternCoreIs35();
    result := ScanFor(Pattern(), stream, length, chunkSize);
  }
}
