/**
 * The JavaScript string primitives the core relies on, stated on `seq<char>`:
 * the `\s` class, `trim`, `startsWith`, `indexOf`/`includes`, `split` on one
 * character, `replace` with a literal pattern (first occurrence, or all of them
 * for a global regular expression built from a literal), ASCII case mapping,
 * `parseInt`, the decimal rendering of integers and `toFixed(1)`.
 */
module JsText {
  import opened Wrappers

  /** `\s` in an ECMAScript regular expression; the same set is what `trim()` removes. */
  predicate IsSpace(c: char) {
    if c < '\U{A0}' then c == ' ' || ('\t' <= c <= '\r')
    else (c == '\U{A0}' || c == '\U{1680}' || ('\U{2000}' <= c <= '\U{200A}')
          || c == '\U{2028}' || c == '\U{2029}' || c == '\U{202F}' || c == '\U{205F}'
          || c == '\U{3000}' || c == '\U{FEFF}')
  }

  /** `\d`. */
  predicate IsDigit(c: char) {
    '0' <= c <= '9'
  }

  predicate AllSpace(s: string) {
    forall i :: 0 <= i < |s| ==> IsSpace(s[i])
  }

  // ---------------------------------------------------------------- trim

  /** `trimStart()`: drops the leading run of `\s` characters. */
  function TrimStart(s: string): (r: string)
    ensures |r| <= |s|
    ensures r == [] || !IsSpace(r[0])
    ensures AllSpace(s[..|s| - |r|])
  {
    if |s| > 0 && IsSpace(s[0]) then
      var r := TrimStart(s[1..]);
      assert s[..|s| - |r|] == [s[0]] + s[1..][..|s| - 1 - |r|];
      r
    else s
  }

  /** `trimEnd()`: drops the trailing run of `\s` characters. */
  function TrimEnd(s: string): (r: string)
    ensures |r| <= |s|
    ensures r == [] || !IsSpace(r[|r| - 1])
    ensures AllSpace(s[|r|..])
  {
    if |s| > 0 && IsSpace(s[|s| - 1]) then
      var r := TrimEnd(s[..|s| - 1]);
      assert s[|r|..] == s[..|s| - 1][|r|..] + [s[|s| - 1]];
      r
    else s
  }

  /** What `trimStart()` keeps is a suffix of its input. */
  lemma {:induction false} TrimStartSuffix(s: string)
    ensures TrimStart(s) == s[|s| - |TrimStart(s)|..]
    decreases |s|
  {
    if |s| > 0 && IsSpace(s[0]) {
      TrimStartSuffix(s[1..]);
      assert s[1..][|s| - 1 - |TrimStart(s)|..] == s[|s| - |TrimStart(s)|..];
    }
  }

  /** What `trimEnd()` keeps is a prefix of its input. */
  lemma {:induction false} TrimEndPrefix(s: string)
    ensures TrimEnd(s) == s[..|TrimEnd(s)|]
    decreases |s|
  {
    if |s| > 0 && IsSpace(s[|s| - 1]) {
      TrimEndPrefix(s[..|s| - 1]);
      assert s[..|s| - 1][..|TrimEnd(s)|] == s[..|TrimEnd(s)|];
    }
  }

  /** `trim()`. */
  function Trim(s: string): string {
    TrimEnd(TrimStart(s))
  }

  /** A string that neither starts nor ends with `\s`. */
  predicate IsTrimmed(s: string) {
    s == [] || (!IsSpace(s[0]) && !IsSpace(s[|s| - 1]))
  }

  /** What `trim()` returns is trimmed, and a trimmed string is its own `trim()`. */
  lemma TrimTrims(s: string)
    ensures IsTrimmed(Trim(s))
    ensures IsTrimmed(s) ==> Trim(s) == s
  {
    TrimmedResult(s);
  }

  /** What `trim()` returns is trimmed. */
  lemma TrimmedResult(s: string)
    ensures IsTrimmed(Trim(s))
  {
    var t := TrimStart(s);
    var r := TrimEnd(t);
    TrimEndPrefix(t);
    if r != [] {
      assert r[0] == t[0];
    }
  }

  /** Leading `\s` characters make no difference to `trim()`. */
  lemma {:induction false} TrimSkipsLeadingSpace(a: string, s: string)
    requires AllSpace(a)
    ensures TrimStart(a + s) == TrimStart(s)
    ensures Trim(a + s) == Trim(s)
  {
    if a != [] {
      var x := a + s;
      assert x[0] == a[0] && IsSpace(x[0]);
      assert x[1..] == a[1..] + s;
      TrimSkipsLeadingSpace(a[1..], s);
      assert TrimStart(x) == TrimStart(x[1..]);
    } else {
      assert a + s == s;
    }
  }

  /** One leading `\s` character makes no difference to `trim()`. */
  lemma TrimLeadingSpace(c: char, x: string)
    requires IsSpace(c)
    ensures TrimStart([c] + x) == TrimStart(x) && Trim([c] + x) == Trim(x)
  {
    assert ([c] + x)[1..] == x;
  }

  /** A string that starts and ends with a non-space character is its own `trim()`. */
  lemma TrimFixed(x: string)
    requires x != [] && !IsSpace(x[0]) && !IsSpace(x[|x| - 1])
    ensures TrimStart(x) == x && TrimEnd(x) == x && Trim(x) == x
  {
  }

  lemma TrimSpaceThenFixed(c: char, x: string)
    requires IsSpace(c) && x != [] && !IsSpace(x[0]) && !IsSpace(x[|x| - 1])
    ensures Trim([c] + x) == x
  {
    TrimLeadingSpace(c, x);
    TrimFixed(x);
  }

  /** One `\s` character on each side makes no difference to `trim()`. */
  lemma TrimOneEach(c: char, x: string, d: char)
    requires IsSpace(c) && IsSpace(d) && x != [] && !IsSpace(x[0]) && !IsSpace(x[|x| - 1])
    ensures Trim([c] + x + [d]) == x
  {
    var y := x + [d];
    assert [c] + x + [d] == [c] + y;
    TrimLeadingSpace(c, y);
    assert TrimStart(y) == y;
    assert y[..|y| - 1] == x;
    TrimFixed(x);
  }

  /** `trim()` neither adds characters nor loses the non-space core of a string. */
  lemma TrimIsInfix(s: string) returns (lo: nat)
    ensures lo + |Trim(s)| <= |s| && Trim(s) == s[lo..lo + |Trim(s)|]
    ensures AllSpace(s[..lo]) && AllSpace(s[lo + |Trim(s)|..])
  {
    var t := TrimStart(s);
    lo := |s| - |t|;
    var r := TrimEnd(t);
    TrimStartSuffix(s);
    TrimEndPrefix(t);
    assert s[lo + |r|..] == t[|r|..];
  }

  // ---------------------------------------------------------------- search

  /** `s.startsWith(p)`. */
  predicate StartsWith(s: string, p: string) {
    |p| <= |s| && s[..|p|] == p
  }

  /** `p` occurs in `s` at index `i`. */
  predicate OccursAt(s: string, p: string, i: int) {
    0 <= i && i + |p| <= |s| && s[i..i + |p|] == p
  }

  function IndexOfFrom(s: string, p: string, i: nat): (r: Option<nat>)
    requires i <= |s|
    ensures r.Some? ==> i <= r.value && OccursAt(s, p, r.value)
    ensures r.Some? ==> forall j :: i <= j < r.value ==> !OccursAt(s, p, j)
    ensures r.None? ==> forall j :: i <= j ==> !OccursAt(s, p, j)
    decreases |s| - i
  {
    if OccursAt(s, p, i) then Some(i)
    else if i == |s| then None
    else IndexOfFrom(s, p, i + 1)
  }

  /** `s.indexOf(p)`, with `None` for -1: the first index at which `p` occurs. */
  function IndexOf(s: string, p: string): (r: Option<nat>)
    ensures r.Some? ==> OccursAt(s, p, r.value) && forall j :: 0 <= j < r.value ==> !OccursAt(s, p, j)
    ensures r.None? <==> forall j :: !OccursAt(s, p, j)
  {
    IndexOfFrom(s, p, 0)
  }

  /** The first occurrence is what `indexOf` finds. */
  lemma IndexOfFirst(s: string, p: string, i: nat)
    requires OccursAt(s, p, i)
    requires forall j :: 0 <= j < i ==> !OccursAt(s, p, j)
    ensures IndexOf(s, p) == Some(i)
  {
    var r := IndexOf(s, p);
    assert r.Some?;
    assert r.value <= i;
    assert r.value >= i;
  }

  /** A pattern placed between two texts occurs where it was placed. */
  lemma OccursInMiddle(a: string, p: string, b: string)
    ensures OccursAt(a + p + b, p, |a|) && Contains(a + p + b, p)
  {
    var s := a + p + b;
    assert s[|a|..|a| + |p|] == p;
    assert OccursAt(s, p, |a|);
    var r := IndexOf(s, p);
    assert r.None? ==> !OccursAt(s, p, |a|);
  }

  /** Occurrences in the second part of a concatenation are the occurrences in that part, shifted. */
  lemma OccursInSuffix(a: string, b: string, p: string, j: nat)
    ensures OccursAt(a + b, p, |a| + j) <==> OccursAt(b, p, j)
  {
    if j + |p| <= |b| {
      assert (a + b)[|a| + j..|a| + j + |p|] == b[j..j + |p|];
    }
  }

  /** A pattern whose first character is missing from `s` occurs nowhere in it. */
  lemma HeadAbsent(s: string, p: string)
    requires |p| > 0 && p[0] !in s
    ensures forall j :: !OccursAt(s, p, j)
  {
  }

  /** `s.includes(p)`. */
  predicate Contains(s: string, p: string) {
    IndexOf(s, p).Some?
  }

  // ---------------------------------------------------------------- split and join

  /** `s.split(sep)` for a one-character separator. */
  function Split(s: string, sep: char): (parts: seq<string>)
    ensures |parts| >= 1
    ensures forall k :: 0 <= k < |parts| ==> sep !in parts[k]
  {
    if |s| == 0 then [""]
    else
      var rest := Split(s[1..], sep);
      if s[0] == sep then [""] + rest
      else [[s[0]] + rest[0]] + rest[1..]
  }

  /** `parts.join(sep)`. */
  function Join(parts: seq<string>, sep: string): string {
    if |parts| == 0 then ""
    else if |parts| == 1 then parts[0]
    else parts[0] + sep + Join(parts[1..], sep)
  }

  /** Splitting and joining again gives back the string. */
  lemma {:induction false} JoinSplit(s: string, sep: char)
    ensures Join(Split(s, sep), [sep]) == s
  {
    if |s| > 0 {
      var rest := Split(s[1..], sep);
      JoinSplit(s[1..], sep);
      if s[0] == sep {
        assert ([""] + rest)[1..] == rest;
      } else {
        var parts := [[s[0]] + rest[0]] + rest[1..];
        if |rest| == 1 {
          assert parts == [[s[0]] + rest[0]];
        } else {
          assert parts[1..] == rest[1..];
          assert Join(rest, [sep]) == rest[0] + [sep] + Join(rest[1..], [sep]);
        }
      }
    }
  }

  /** Joining pieces that do not contain the separator and splitting again gives back the pieces. */
  lemma {:induction false} SplitJoin(parts: seq<string>, sep: char)
    requires |parts| >= 1
    requires forall k :: 0 <= k < |parts| ==> sep !in parts[k]
    ensures Split(Join(parts, [sep]), sep) == parts
  {
    if |parts| == 1 {
      SplitNoSeparator(parts[0], sep);
    } else {
      SplitJoin(parts[1..], sep);
      SplitAfterPiece(parts[0], Join(parts[1..], [sep]), sep);
      assert [parts[0]] + parts[1..] == parts;
    }
  }

  lemma {:induction false} SplitNoSeparator(s: string, sep: char)
    requires sep !in s
    ensures Split(s, sep) == [s]
  {
    if |s| > 0 {
      SplitNoSeparator(s[1..], sep);
      assert [s[0]] + s[1..] == s;
    }
  }

  lemma {:induction false} SplitAfterPiece(p: string, rest: string, sep: char)
    requires sep !in p
    ensures Split(p + [sep] + rest, sep) == [p] + Split(rest, sep)
  {
    var s := p + [sep] + rest;
    if p == [] {
      assert s[1..] == rest;
    } else {
      assert s[1..] == p[1..] + [sep] + rest;
      SplitAfterPiece(p[1..], rest, sep);
      assert [p[0]] + p[1..] == p;
    }
  }

  /** When the separator occurs, the last piece is exactly what follows its last occurrence. */
  lemma {:induction false} SplitLast(s: string, sep: char)
    ensures var parts := Split(s, sep);
      (|parts| > 1 <==> sep in s) &&
      (sep in s ==>
        var last := parts[|parts| - 1];
        |last| < |s| && s[|s| - |last| - 1] == sep && last == s[|s| - |last|..])
    ensures sep !in s ==> Split(s, sep) == [s]
  {
    if |s| > 0 {
      SplitLast(s[1..], sep);
      var rest := Split(s[1..], sep);
      if s[0] != sep {
        if sep in s[1..] {
          assert |rest| > 1;
        } else {
          assert rest == [s[1..]];
          assert [s[0]] + s[1..] == s;
          assert sep !in s;
        }
      } else {
        if sep !in s[1..] {
          assert rest == [s[1..]];
        }
      }
    }
  }

  // ---------------------------------------------------------------- replace

  /**
   * `s.replace(new RegExp(p, 'g'), rep)` for a regular expression that matches
   * `pat` literally and a replacement free of `$` patterns: every leftmost,
   * non-overlapping occurrence of `pat` is replaced.
   */
  function ReplaceAll(s: string, pat: string, rep: string): string
    requires |pat| > 0
  {
    if |s| < |pat| then s
    else if s[..|pat|] == pat then rep + ReplaceAll(s[|pat|..], pat, rep)
    else [s[0]] + ReplaceAll(s[1..], pat, rep)
  }

  /** `s.replace(pat, rep)` with a string pattern: only the first occurrence is replaced. */
  function ReplaceFirst(s: string, pat: string, rep: string): (r: string)
    ensures !Contains(s, pat) ==> r == s
    ensures Contains(s, pat) ==>
      var i := IndexOf(s, pat).value;
      r == s[..i] + rep + s[i + |pat|..]
  {
    match IndexOf(s, pat)
    case None => s
    case Some(i) => s[..i] + rep + s[i + |pat|..]
  }

  /** A string in which the pattern does not occur is left unchanged. */
  lemma {:induction false} ReplaceAllAbsent(s: string, pat: string, rep: string)
    requires |pat| > 0
    requires forall i :: !OccursAt(s, pat, i)
    ensures ReplaceAll(s, pat, rep) == s
  {
    if |s| >= |pat| {
      assert !OccursAt(s, pat, 0);
      forall i ensures !OccursAt(s[1..], pat, i) {
        if OccursAt(s[1..], pat, i) {
          assert s[1..][i..i + |pat|] == s[i + 1..i + 1 + |pat|];
          assert OccursAt(s, pat, i + 1);
        }
      }
      ReplaceAllAbsent(s[1..], pat, rep);
      assert [s[0]] + s[1..] == s;
    }
  }

  /** A prefix that does not contain the pattern's first character passes through unchanged. */
  lemma {:induction false} ReplaceAllSkipsPrefix(a: string, b: string, pat: string, rep: string)
    requires |pat| > 0
    requires pat[0] !in a
    ensures ReplaceAll(a + b, pat, rep) == a + ReplaceAll(b, pat, rep)
  {
    if a == [] {
      assert a + b == b;
    } else if |a + b| < |pat| {
      assert ReplaceAll(b, pat, rep) == b;
    } else {
      assert (a + b)[..|pat|][0] == a[0];
      assert (a + b)[1..] == a[1..] + b;
      ReplaceAllSkipsPrefix(a[1..], b, pat, rep);
      assert [a[0]] + a[1..] == a;
    }
  }

  /** The first character of `pat` occurs nowhere else in `pat` (as in `{key}` with a brace-free key). */
  predicate UniqueHead(pat: string) {
    |pat| > 0 && pat[0] !in pat[1..]
  }

  /** A pattern with a unique head cannot start inside a pattern-free piece and run into the pattern that follows it. */
  lemma NoOccurrenceStraddles(p: string, rest: string, pat: string)
    requires UniqueHead(pat) && p != []
    requires forall i :: !OccursAt(p, pat, i)
    ensures !OccursAt(p + pat + rest, pat, 0)
  {
    var s := p + pat + rest;
    if |p| >= |pat| {
      assert p[0..|pat|] == s[0..|pat|];
      assert !OccursAt(p, pat, 0);
    } else if |pat| <= |s| {
      assert pat[1..][|p| - 1] == pat[|p|];
      assert pat[|p|] != pat[0];
      assert s[|p|] == pat[0];
      assert s[0..|pat|][|p|] != pat[|p|];
    }
  }

  /** A string without occurrences of the pattern keeps that property when its first character is dropped. */
  lemma NoOccurrenceTail(p: string, pat: string)
    requires p != []
    requires forall i :: !OccursAt(p, pat, i)
    ensures forall i :: !OccursAt(p[1..], pat, i)
  {
    forall i | OccursAt(p[1..], pat, i) ensures false {
      assert p[1..][i..i + |pat|] == p[i + 1..i + 1 + |pat|];
      assert OccursAt(p, pat, i + 1);
    }
  }

  lemma {:induction false} ReplaceAllAfterPiece(p: string, rest: string, pat: string, rep: string)
    requires UniqueHead(pat)
    requires forall i :: !OccursAt(p, pat, i)
    ensures ReplaceAll(p + pat + rest, pat, rep) == p + rep + ReplaceAll(rest, pat, rep)
  {
    var s := p + pat + rest;
    if p == [] {
      assert s == pat + rest;
      assert s[..|pat|] == pat;
      assert s[|pat|..] == rest;
    } else {
      NoOccurrenceStraddles(p, rest, pat);
      assert s[..|pat|] != pat;
      assert ReplaceAll(s, pat, rep) == [s[0]] + ReplaceAll(s[1..], pat, rep);
      assert s[1..] == p[1..] + pat + rest;
      NoOccurrenceTail(p, pat);
      ReplaceAllAfterPiece(p[1..], rest, pat, rep);
      assert [p[0]] + p[1..] == p;
    }
  }

  /**
   * Every occurrence is replaced and nothing else changes: a string made of
   * pattern-free pieces separated by the pattern becomes the same pieces
   * separated by the replacement.
   */
  lemma {:induction false} ReplaceAllJoin(parts: seq<string>, pat: string, rep: string)
    requires UniqueHead(pat)
    requires |parts| >= 1
    requires forall k, i :: 0 <= k < |parts| ==> !OccursAt(parts[k], pat, i)
    ensures ReplaceAll(Join(parts, pat), pat, rep) == Join(parts, rep)
  {
    if |parts| == 1 {
      ReplaceAllAbsent(parts[0], pat, rep);
    } else {
      assert forall i :: !OccursAt(parts[0], pat, i);
      ReplaceAllAfterPiece(parts[0], Join(parts[1..], pat), pat, rep);
      ReplaceAllJoin(parts[1..], pat, rep);
    }
  }

  // ---------------------------------------------------------------- case mapping

  function UpperChar(c: char): char {
    if 'a' <= c <= 'z' then (c as int - 'a' as int + 'A' as int) as char else c
  }

  function LowerChar(c: char): char {
    if 'A' <= c <= 'Z' then (c as int - 'A' as int + 'a' as int) as char else c
  }

  /** `toUpperCase()` on the ASCII letters. */
  function ToUpper(s: string): (r: string)
    ensures |r| == |s| && forall i :: 0 <= i < |s| ==> r[i] == UpperChar(s[i])
  {
    seq(|s|, i requires 0 <= i < |s| => UpperChar(s[i]))
  }

  /** `toLowerCase()` on the ASCII letters. */
  function ToLower(s: string): (r: string)
    ensures |r| == |s| && forall i :: 0 <= i < |s| ==> r[i] == LowerChar(s[i])
  {
    seq(|s|, i requires 0 <= i < |s| => LowerChar(s[i]))
  }

  lemma ToUpperIdempotent(s: string)
    ensures ToUpper(ToUpper(s)) == ToUpper(s)
  {
  }

  // ---------------------------------------------------------------- integers

  /** The value of a digit character in base 16 or below; 16 for every other character. */
  function DigitOf(c: char): nat {
    if '0' <= c <= '9' then c as int - '0' as int
    else if 'a' <= c <= 'f' then c as int - 'a' as int + 10
    else if 'A' <= c <= 'F' then c as int - 'A' as int + 10
    else 16
  }

  predicate AllDigitsIn(s: string, radix: nat) {
    forall i :: 0 <= i < |s| ==> DigitOf(s[i]) < radix
  }

  /** The value of a string of digits in the given base. */
  function ValueIn(ds: string, radix: nat): nat
    requires AllDigitsIn(ds, radix)
  {
    if ds == [] then 0 else ValueIn(ds[..|ds| - 1], radix) * radix + DigitOf(ds[|ds| - 1])
  }

  /** The length of the longest prefix of `s` made of digits of the given base. */
  function DigitRun(s: string, radix: nat): (n: nat)
    ensures n <= |s| && AllDigitsIn(s[..n], radix)
    ensures n == |s| || DigitOf(s[n]) >= radix
  {
    if |s| > 0 && DigitOf(s[0]) < radix then 1 + DigitRun(s[1..], radix) else 0
  }

  /**
   * `parseInt(s)` without a radix: skip leading `\s`, take an optional sign, switch
   * to base 16 after `0x`/`0X`, and read the longest run of digits; `None` is NaN.
   */
  function ParseInt(str: string): Option<int> {
    var s := TrimStart(str);
    var sign := if |s| > 0 && s[0] == '-' then -1 else 1;
    var t := if |s| > 0 && (s[0] == '-' || s[0] == '+') then s[1..] else s;
    match ParseUnsigned(t)
    case None => None
    case Some(v) => Some(sign * v)
  }

  /** The digits part of `parseInt`, after the sign. */
  function ParseUnsigned(t: string): Option<nat> {
    var hex := |t| >= 2 && t[0] == '0' && (t[1] == 'x' || t[1] == 'X');
    var radix := if hex then 16 else 10;
    var u := if hex then t[2..] else t;
    var n := DigitRun(u, radix);
    if n == 0 then None else Some(ValueIn(u[..n], radix))
  }

  function DigitChar(d: nat): (c: char)
    requires d < 10
    ensures IsDigit(c) && DigitOf(c) == d
  {
    ('0' as int + d) as char
  }

  /** `String(n)` for a non-negative integer. */
  function NatToString(n: nat): (s: string)
    ensures |s| > 0 && AllDigitsIn(s, 10)
  {
    if n < 10 then [DigitChar(n)] else NatToString(n / 10) + [DigitChar(n % 10)]
  }

  /** `String(i)` for an integer. */
  function IntToString(i: int): string {
    if i < 0 then "-" + NatToString(-i) else NatToString(i)
  }

  lemma {:induction false} NatToStringValue(n: nat)
    ensures ValueIn(NatToString(n), 10) == n
  {
    var s := NatToString(n);
    if n >= 10 {
      NatToStringValue(n / 10);
      assert s[..|s| - 1] == NatToString(n / 10);
    }
  }

  /** `parseInt` reads back what `String` renders, with or without an explicit `+` or `-` sign. */
  lemma ParseIntNatToString(n: nat, prefix: string)
    requires prefix == "" || prefix == "+" || prefix == "-"
    ensures ParseInt(prefix + NatToString(n)) == Some(if prefix == "-" then -(n as int) else n as int)
  {
    var d := NatToString(n);
    if prefix == "" {
      assert prefix + d == d;
      ParseIntUnsignedText(n);
    } else {
      ParseIntSignedText(n, prefix);
    }
  }

  lemma ParseIntUnsignedText(n: nat)
    ensures ParseInt(NatToString(n)) == Some(n as int)
  {
    var d := NatToString(n);
    ParseUnsignedDigits(n);
    NoSpaceHead(d);
  }

  lemma ParseIntSignedText(n: nat, prefix: string)
    requires prefix == "+" || prefix == "-"
    ensures ParseInt(prefix + NatToString(n)) == Some(if prefix == "-" then -(n as int) else n as int)
  {
    var d := NatToString(n);
    ParseUnsignedDigits(n);
    var s := prefix + d;
    assert s[1..] == d && s[0] == prefix[0];
    NoSpaceHead(s);
    ParseIntSigned(s);
  }

  lemma NoSpaceHead(s: string)
    requires s != [] && (s[0] == '+' || s[0] == '-' || IsDigit(s[0]))
    ensures TrimStart(s) == s
  {
  }

  lemma ParseIntSigned(s: string)
    requires s != [] && (s[0] == '+' || s[0] == '-') && TrimStart(s) == s
    ensures s[0] == '-' ==> ParseInt(s) == (match ParseUnsigned(s[1..]) case None => None case Some(v) => Option<int>.Some(-(v as int)))
    ensures s[0] == '+' ==> ParseInt(s) == (match ParseUnsigned(s[1..]) case None => None case Some(v) => Option<int>.Some(v as int))
  {
  }

  lemma ParseUnsignedDigits(n: nat)
    ensures ParseUnsigned(NatToString(n)) == Some(n)
  {
    var d := NatToString(n);
    assert !(|d| >= 2 && d[0] == '0' && (d[1] == 'x' || d[1] == 'X')) by {
      if |d| >= 2 { assert IsDigit(d[1]); }
    }
    DigitRunAll(d, 10);
    assert d[..|d|] == d;
    NatToStringValue(n);
  }

  lemma {:induction false} DigitRunAll(s: string, radix: nat)
    requires AllDigitsIn(s, radix)
    ensures DigitRun(s, radix) == |s|
  {
    if |s| > 0 {
      DigitRunAll(s[1..], radix);
    }
  }

  /** `parseInt(String(i)) == i`. */
  lemma ParseIntIntToString(i: int)
    ensures ParseInt(IntToString(i)) == Some(i)
  {
    var s := IntToString(i);
    if i < 0 {
      var n: nat := -i;
      assert s == "-" + NatToString(n);
      ParseIntNatToString(n, "-");
      assert ParseInt(s) == Some(-(n as int));
    } else {
      var n: nat := i;
      assert s == "" + NatToString(n);
      ParseIntNatToString(n, "");
      assert ParseInt(s) == Some(n as int);
    }
  }

  // ---------------------------------------------------------------- toFixed(1)

  /** The integer nearest to `10·x`, the larger one on a tie. */
  function NearestTenths(x: real): (n: int)
    ensures n as real - 0.5 <= 10.0 * x < n as real + 0.5
  {
    (10.0 * x + 0.5).Floor
  }

  /** A count of tenths written with one decimal, as `toFixed(1)` shows it. */
  function TenthsText(n: nat): string {
    NatToString(n / 10) + "." + [DigitChar(n % 10)]
  }

  /** `x.toFixed(1)` for `|x| < 1e21`: `-` for a negative `x`, then the tenths nearest to `|x|`. */
  function ToFixed1(x: real): string {
    if x < 0.0 then "-" + TenthsText(NearestTenths(-x)) else TenthsText(NearestTenths(x))
  }

  /** A value that is a whole number of tenths is shown exactly. */
  lemma ToFixed1Exact(n: nat)
    ensures ToFixed1(n as real / 10.0) == TenthsText(n)
  {
    var x := n as real / 10.0;
    assert 10.0 * x == n as real;
  }
}
