/**
 * The parser that turns the analyst model's markdown answer into a prediction
 * record: the text is cut into `### HEADING` sections and each field is read
 * from the section it belongs to.
 */
module ResponseParser {
  import opened Wrappers
  import opened JsText

  // ---------------------------------------------------------------- sections

  /** The header class `[A-Z\s]`; it contains the line feed. */
  predicate IsHeaderChar(c: char) {
    ('A' <= c <= 'Z') || IsSpace(c)
  }

  predicate AllHeaderChars(s: string) {
    forall k :: 0 <= k < |s| ==> IsHeaderChar(s[k])
  }

  /** The end of the run of header characters that starts at `i`. */
  function HeaderRunEnd(s: string, i: nat): (e: nat)
    requires i <= |s|
    ensures i <= e <= |s|
    ensures AllHeaderChars(s[i..e])
    ensures e == |s| || !IsHeaderChar(s[e])
    decreases |s| - i
  {
    if i < |s| && IsHeaderChar(s[i]) then
      HeaderRunEnd(s, i + 1)
    else i
  }

  predicate NoNewlineIn(s: string, lo: nat, hi: nat) {
    forall k :: lo <= k < hi && k < |s| ==> s[k] != '\n'
  }

  /** The last line feed at an index in `[lo, hi)`. */
  function LastNewline(s: string, lo: nat, hi: nat): (r: Option<nat>)
    requires hi <= |s|
    ensures r.Some? ==> lo <= r.value < hi && s[r.value] == '\n'
    ensures r.Some? ==> NoNewlineIn(s, r.value + 1, hi)
    ensures r.None? ==> NoNewlineIn(s, lo, hi)
    decreases hi
  {
    if hi <= lo then None
    else if s[hi - 1] == '\n' then Some(hi - 1)
    else LastNewline(s, lo, hi - 1)
  }

  predicate NoHeadingIn(s: string, lo: nat, hi: nat) {
    forall j :: lo <= j < hi ==> !OccursAt(s, "###", j)
  }

  /** Where the lazy body `[\s\S]*?(?=###|$)` stops: at the first `###` from `i`, or at the end. */
  function BodyEnd(s: string, i: nat): (k: nat)
    requires i <= |s|
    ensures i <= k <= |s|
    ensures k == |s| || OccursAt(s, "###", k)
    ensures NoHeadingIn(s, i, k)
  {
    match IndexOfFrom(s, "###", i)
    case Some(k) => k
    case None => |s|
  }

  /** The body end is the one position with no `###` before it that is a `###` or the end. */
  lemma BodyEndAt(s: string, i: nat, k: nat)
    requires i <= k <= |s|
    requires k == |s| || OccursAt(s, "###", k)
    requires NoHeadingIn(s, i, k)
    ensures BodyEnd(s, i) == k
  {
    var b := BodyEnd(s, i);
    assert b < k ==> OccursAt(s, "###", b);
    assert b > k ==> OccursAt(s, "###", k);
  }

  /** `s.replace(/\s+/g, '_')`: every maximal run of `\s` becomes one underscore. */
  function CollapseSpaces(s: string): (r: string)
    ensures NoSpace(r)
    decreases |s|
  {
    if s == [] then []
    else if IsSpace(s[0]) then
      var rest := TrimStart(s);
      TrimStartSuffix(s);
      "_" + CollapseSpaces(rest)
    else [s[0]] + CollapseSpaces(s[1..])
  }

  /** A section name: the header text trimmed, lower-cased, whitespace runs turned into `_`. */
  function Normalize(header: string): string {
    CollapseSpaces(ToLower(Trim(header)))
  }

  /** What one successful `exec` of the section expression yields. */
  datatype SectionMatch = SectionMatch(start: nat, name: string, body: string, end: nat)

  /**
   * The section expression tried at index `p`. After `###`, `\s*([A-Z\s]+)`
   * can only span the run of header characters, and backtracking settles on
   * the LAST line feed inside that run, so an upper-case first body line is
   * drawn into the name. The spaces `\s*` takes are removed by the trim, so
   * the name is read from everything between `###` and that line feed.
   */
  function MatchAt(s: string, p: nat): (m: Option<SectionMatch>)
    requires p <= |s|
    ensures m.Some? ==> m.value.start == p && p < m.value.end <= |s|
  {
    if !OccursAt(s, "###", p) then None
    else
      match HeaderNewline(s, p)
      case None => None
      case Some(j) =>
        var k := BodyEnd(s, j + 1);
        Some(SectionMatch(p, Normalize(s[p + 3..j]), Trim(s[j + 1..k]), k))
  }

  /** The line feed that ends the header: the last one inside the run of header characters after `###`. */
  function HeaderNewline(s: string, p: nat): (r: Option<nat>)
    requires p + 3 <= |s|
    ensures r.Some? ==> p + 4 <= r.value < |s| && s[r.value] == '\n' && AllHeaderChars(s[p + 3..r.value])
  {
    var e := HeaderRunEnd(s, p + 3);
    match LastNewline(s, p + 4, e)
    case None => None
    case Some(j) => HeaderSlice(s, p + 3, e, j); Some(j)
  }

  /** `exec` from `lastIndex == i`: the match at the smallest index `>= i` where there is one. */
  function NextMatch(s: string, i: nat): (m: Option<SectionMatch>)
    requires i <= |s|
    ensures m.Some? ==> i <= m.value.start < m.value.end <= |s| && MatchAt(s, m.value.start) == m
    decreases |s| - i
  {
    match MatchAt(s, i)
    case Some(m) => Some(m)
    case None => if i == |s| then None else NextMatch(s, i + 1)
  }

  /** No match starts in `[lo, hi)`. */
  predicate NoMatchIn(s: string, lo: nat, hi: nat) {
    forall p :: lo <= p < hi && p <= |s| ==> MatchAt(s, p).None?
  }

  /** `exec` returns the leftmost match at or after `i`. */
  lemma {:induction false} NextMatchLeftmost(s: string, i: nat, p: nat)
    requires i <= p <= |s| && MatchAt(s, p).Some? && NoMatchIn(s, i, p)
    ensures NextMatch(s, i) == MatchAt(s, p)
    decreases p - i
  {
    if i < p {
      assert MatchAt(s, i).None?;
      NextMatchSkips(s, i);
      NextMatchLeftmost(s, i + 1, p);
    } else {
      NextMatchHere(s, i);
    }
  }

  /** Where no match starts, `exec` goes on at the next index. */
  lemma NextMatchSkips(s: string, i: nat)
    requires i < |s| && MatchAt(s, i).None?
    ensures NextMatch(s, i) == NextMatch(s, i + 1)
  {
  }

  /** Where a match starts, `exec` returns it. */
  lemma NextMatchHere(s: string, i: nat)
    requires i <= |s| && MatchAt(s, i).Some?
    ensures NextMatch(s, i) == MatchAt(s, i)
  {
  }

  /** The dictionary the loop builds from index `i` on, starting from `acc`; later headings overwrite. */
  function SectionsFrom(s: string, i: nat, acc: map<string, string>): map<string, string>
    requires i <= |s|
    decreases |s| - i
  {
    match NextMatch(s, i)
    case None => acc
    case Some(m) => SectionsFrom(s, m.end, acc[m.name := m.body])
  }

  function Sections(s: string): (sections: map<string, string>)
    ensures WellShaped(sections)
  {
    SectionsShape(s, 0, map[]);
    SectionsFrom(s, 0, map[])
  }

  /** `extractSections`: the `while (regex.exec(...))` loop filling the dictionary. */
  method ExtractSections(response: string) returns (sections: map<string, string>)
    ensures sections == Sections(response)
  {
    sections := map[];
    var lastIndex := 0;
    var m := NextMatch(response, 0);
    while m.Some?
      invariant lastIndex <= |response|
      invariant m == NextMatch(response, lastIndex)
      invariant SectionsFrom(response, lastIndex, sections) == Sections(response)
      decreases |response| - lastIndex
    {
      sections := sections[m.value.name := m.value.body];
      lastIndex := m.value.end;
      m := NextMatch(response, lastIndex);
    }
  }

  /** The characters a section name can hold. */
  predicate IsSectionName(name: string) {
    forall k :: 0 <= k < |name| ==> ('a' <= name[k] <= 'z') || name[k] == '_'
  }

  /** Lower-case letters and `\s`: what lower-casing header characters leaves. */
  predicate LowerOrSpace(s: string) {
    forall k :: 0 <= k < |s| ==> ('a' <= s[k] <= 'z') || IsSpace(s[k])
  }

  lemma {:induction false} CollapseLower(s: string)
    requires LowerOrSpace(s)
    ensures IsSectionName(CollapseSpaces(s))
    decreases |s|
  {
    if s != [] {
      if IsSpace(s[0]) {
        var rest := TrimStart(s);
        TrimStartSuffix(s);
        assert LowerOrSpace(rest) by {
          forall k | 0 <= k < |rest| ensures ('a' <= rest[k] <= 'z') || IsSpace(rest[k]) {
            assert rest[k] == s[|s| - |rest| + k];
          }
        }
        CollapseLower(rest);
      } else {
        assert LowerOrSpace(s[1..]) by {
          forall k | 0 <= k < |s| - 1 ensures ('a' <= s[1..][k] <= 'z') || IsSpace(s[1..][k]) {
            assert s[1..][k] == s[k + 1];
          }
        }
        CollapseLower(s[1..]);
      }
    }
  }

  lemma TrimHeader(h: string)
    requires AllHeaderChars(h)
    ensures AllHeaderChars(Trim(h))
  {
    var t := Trim(h);
    var lo := TrimIsInfix(h);
    forall k | 0 <= k < |t| ensures IsHeaderChar(t[k]) {
      assert t[k] == h[lo + k];
    }
  }

  lemma LowerHeader(t: string)
    requires AllHeaderChars(t)
    ensures LowerOrSpace(ToLower(t))
  {
    var l := ToLower(t);
    forall k | 0 <= k < |l| ensures ('a' <= l[k] <= 'z') || IsSpace(l[k]) {
      assert l[k] == LowerChar(t[k]);
    }
  }

  lemma NormalizeHeader(h: string)
    requires AllHeaderChars(h)
    ensures IsSectionName(Normalize(h))
  {
    TrimHeader(h);
    LowerHeader(Trim(h));
    CollapseLower(ToLower(Trim(h)));
  }

  lemma HeaderSlice(s: string, i: nat, e: nat, j: nat)
    requires i <= j <= e <= |s| && AllHeaderChars(s[i..e])
    ensures AllHeaderChars(s[i..j])
  {
    assert forall k :: 0 <= k < j - i ==> s[i..j][k] == s[i..e][k];
  }

  lemma MatchShape(s: string, p: nat)
    requires p <= |s| && MatchAt(s, p).Some?
    ensures IsSectionName(MatchAt(s, p).value.name) && IsTrimmed(MatchAt(s, p).value.body)
  {
    var j := HeaderNewline(s, p).value;
    NormalizeHeader(s[p + 3..j]);
    TrimmedResult(s[j + 1..BodyEnd(s, j + 1)]);
  }

  /** Every name consists of lower-case letters and underscores, and every body is trimmed. */
  predicate WellShaped(sections: map<string, string>) {
    forall n :: n in sections ==> IsSectionName(n) && IsTrimmed(sections[n])
  }

  lemma UpdateWellShaped(sections: map<string, string>, name: string, body: string)
    requires WellShaped(sections) && IsSectionName(name) && IsTrimmed(body)
    ensures WellShaped(sections[name := body])
  {
  }

  /** The dictionary the section loop builds is well shaped. */
  lemma {:induction false} SectionsShape(s: string, i: nat, acc: map<string, string>)
    requires i <= |s| && WellShaped(acc)
    ensures WellShaped(SectionsFrom(s, i, acc))
    decreases |s| - i
  {
    match NextMatch(s, i)
    case None =>
    case Some(m) =>
      MatchShape(s, m.start);
      UpdateWellShaped(acc, m.name, m.body);
      SectionsShape(s, m.end, acc[m.name := m.body]);
  }

  /** No match starts at or after `i` when no `###` does. */
  lemma NoMatchWithoutHeading(s: string, i: nat)
    requires i <= |s|
    requires forall j :: i <= j ==> !OccursAt(s, "###", j)
    ensures NextMatch(s, i).None?
    decreases |s| - i
  {
    if i < |s| {
      NoMatchWithoutHeading(s, i + 1);
    }
  }

  /** `###`, a header `t`, a line feed and a body. */
  function SectionText(t: string, body: string): string {
    "###" + t + "\n" + body
  }

  /** The header run of such a text ends right after the line feed. */
  lemma OneSectionHeader(t: string, body: string)
    requires |t| >= 1 && AllHeaderChars(t)
    requires body == [] || !IsHeaderChar(body[0])
    ensures HeaderRunEnd(SectionText(t, body), 3) == |t| + 4
    ensures LastNewline(SectionText(t, body), 4, |t| + 4) == Some(|t| + 3)
  {
    var s := SectionText(t, body);
    SectionTextSlices(t, body);
    assert s[|t| + 3] == '\n';
    var h := s[3..|t| + 4];
    assert AllHeaderChars(h) by {
      forall k | 0 <= k < |t| ensures IsHeaderChar(h[k]) {
        assert h[k] == s[3..|t| + 3][k];
      }
    }
    if |t| + 4 < |s| {
      assert s[|t| + 4] == s[|t| + 4..|s|][0];
    }
    HeaderRunFrom(s, 3, |t| + 4);
  }

  /** Nothing after the line feed holds `###`, so the body runs to the end. */
  lemma OneSectionBody(t: string, body: string)
    requires forall j :: !OccursAt(body, "###", j)
    ensures forall i :: |t| + 4 <= i ==> !OccursAt(SectionText(t, body), "###", i)
    ensures BodyEnd(SectionText(t, body), |t| + 4) == |SectionText(t, body)|
  {
    var s := SectionText(t, body);
    var j := |t| + 3;
    forall i | j + 1 <= i
      ensures !OccursAt(s, "###", i)
    {
      if OccursAt(s, "###", i) {
        assert s[i..i + 3] == body[i - j - 1..i - j + 2];
        assert OccursAt(body, "###", i - j - 1);
      }
    }
  }

  lemma SectionTextSlices(t: string, body: string)
    ensures var s := SectionText(t, body);
            |s| == |t| + 4 + |body| && OccursAt(s, "###", 0) && s[3..|t| + 3] == t && s[|t| + 4..|s|] == body
  {
  }

  lemma OneSectionMatch(t: string, body: string)
    requires |t| >= 1 && AllHeaderChars(t)
    requires body == [] || !IsHeaderChar(body[0])
    requires forall j :: !OccursAt(body, "###", j)
    ensures MatchAt(SectionText(t, body), 0)
            == Some(SectionMatch(0, Normalize(t), Trim(body), |SectionText(t, body)|))
  {
    var s := SectionText(t, body);
    SectionTextSlices(t, body);
    OneSectionHeader(t, body);
    OneSectionBody(t, body);
    var j := |t| + 3;
    assert HeaderNewline(s, 0) == Some(j);
    assert MatchAt(s, 0) == Some(SectionMatch(0, Normalize(s[3..j]), Trim(s[j + 1..|s|]), |s|));
  }

  /**
   * A text made of `###`, a run `t` of header characters, a line feed, and a
   * body that neither starts with a header character nor holds `###`, has
   * exactly one section: `t` normalised, mapped to the trimmed body.
   */
  lemma OneSection(t: string, body: string)
    requires |t| >= 1 && AllHeaderChars(t)
    requires body == [] || !IsHeaderChar(body[0])
    requires forall j :: !OccursAt(body, "###", j)
    ensures Sections(SectionText(t, body)) == map[Normalize(t) := Trim(body)]
  {
    var s := SectionText(t, body);
    var m := SectionMatch(0, Normalize(t), Trim(body), |s|);
    OneSectionMatch(t, body);
    assert NextMatch(s, 0) == Some(m);
    OneSectionBody(t, body);
    NoMatchWithoutHeading(s, |s|);
    assert SectionsFrom(s, |s|, map[][m.name := m.body]) == map[m.name := m.body];
  }

  lemma {:induction false} HeaderRunFrom(s: string, i: nat, e: nat)
    requires i <= e <= |s|
    requires AllHeaderChars(s[i..e])
    requires e == |s| || !IsHeaderChar(s[e])
    ensures HeaderRunEnd(s, i) == e
    decreases e - i
  {
    if i < e {
      assert s[i] == s[i..e][0];
      assert s[i + 1..e] == s[i..e][1..];
      HeaderRunFrom(s, i + 1, e);
    }
  }

  predicate NoSpace(s: string) {
    forall k :: 0 <= k < |s| ==> !IsSpace(s[k])
  }

  lemma {:induction false} CollapseNoSpace(a: string, rest: string)
    requires NoSpace(a)
    ensures CollapseSpaces(a + rest) == a + CollapseSpaces(rest)
  {
    if a != [] {
      assert (a + rest)[0] == a[0];
      assert (a + rest)[1..] == a[1..] + rest;
      assert NoSpace(a[1..]) by {
        forall k | 0 <= k < |a| - 1 ensures !IsSpace(a[1..][k]) {
          assert a[1..][k] == a[k + 1];
        }
      }
      CollapseNoSpace(a[1..], rest);
    } else {
      assert a + rest == rest;
    }
  }

  lemma CollapseAfterNewline(b: string)
    requires NoSpace(b) && b != []
    ensures CollapseSpaces("\n" + b) == "_" + b
  {
    assert "\n" + b == ['\n'] + b;
    TrimLeadingSpace('\n', b);
    assert !IsSpace(b[0]);
    CollapseNoSpace(b, []);
    assert b + [] == b;
  }

  /** Two words on two lines make one name joined by an underscore. */
  lemma CollapseTwoLines(a: string, b: string)
    requires NoSpace(a) && NoSpace(b) && b != []
    ensures CollapseSpaces(a + "\n" + b) == a + "_" + b
  {
    CollapseNoSpace(a, "\n" + b);
    assert a + "\n" + b == a + ("\n" + b);
    CollapseAfterNewline(b);
  }

  /** A non-empty run of upper-case ASCII letters. */
  predicate UpperWord(w: string) {
    w != [] && forall k :: 0 <= k < |w| ==> 'A' <= w[k] <= 'Z'
  }

  lemma LowerWord(w: string)
    requires UpperWord(w)
    ensures NoSpace(ToLower(w)) && |ToLower(w)| > 0
  {
    var l := ToLower(w);
    forall k | 0 <= k < |l| ensures !IsSpace(l[k]) {
      assert l[k] == LowerChar(w[k]);
    }
  }

  lemma ToLowerLines(a: string, b: string)
    ensures ToLower(a + "\n" + b) == ToLower(a) + "\n" + ToLower(b)
  {
    var x := a + "\n" + b;
    var y := ToLower(a) + "\n" + ToLower(b);
    assert |ToLower(x)| == |y|;
    forall i | 0 <= i < |y| ensures ToLower(x)[i] == y[i] {
      if i < |a| {
        assert x[i] == a[i];
      } else if i > |a| {
        assert x[i] == b[i - |a| - 1];
      }
    }
  }

  lemma TwoWordsHeader(h: string, l: string)
    requires UpperWord(h) && UpperWord(l)
    ensures AllHeaderChars(" " + h + "\n" + l)
  {
    var t := " " + h + "\n" + l;
    forall k | 0 <= k < |t| ensures IsHeaderChar(t[k]) {
      if 1 <= k <= |h| { assert t[k] == h[k - 1]; }
      else if k > |h| + 1 { assert t[k] == l[k - |h| - 2]; }
    }
  }

  lemma TrimTwoWords(h: string, l: string)
    requires UpperWord(h) && UpperWord(l)
    ensures Trim(" " + h + "\n" + l) == h + "\n" + l
  {
    var x := h + "\n" + l;
    assert " " + h + "\n" + l == [' '] + x;
    assert x[0] == h[0] && x[|x| - 1] == l[|l| - 1];
    TrimSpaceThenFixed(' ', x);
  }

  lemma NormalizeTwoWords(h: string, l: string)
    requires UpperWord(h) && UpperWord(l)
    ensures Normalize(" " + h + "\n" + l) == ToLower(h) + "_" + ToLower(l)
  {
    TrimTwoWords(h, l);
    ToLowerLines(h, l);
    LowerWord(h);
    LowerWord(l);
    CollapseTwoLines(ToLower(h), ToLower(l));
  }

  /**
   * The all-caps first body line is drawn into the name: `### H\nL\n...`,
   * with `H` and `L` words in capitals, has the single section `h_l`.
   */
  lemma FirstLineJoinsName(h: string, l: string, body: string)
    requires UpperWord(h) && UpperWord(l)
    requires body == [] || !IsHeaderChar(body[0])
    requires forall j :: !OccursAt(body, "###", j)
    ensures Sections("### " + h + "\n" + l + "\n" + body) == map[ToLower(h) + "_" + ToLower(l) := Trim(body)]
  {
    var t := " " + h + "\n" + l;
    TwoWordsHeader(h, l);
    assert "### " + h + "\n" + l + "\n" + body == SectionText(t, body);
    OneSection(t, body);
    NormalizeTwoWords(h, l);
  }

  lemma QuirkUpper()
    ensures UpperWord("PREDICTION") && UpperWord("HOME")
  {
  }

  lemma QuirkText()
    ensures "### PREDICTION\nHOME\n" == "### " + "PREDICTION" + "\n" + "HOME" + "\n" + ""
    ensures Trim("") == ""
  {
  }

  lemma QuirkLowerPrediction()
    ensures ToLower("PREDICTION") == "prediction"
  {
  }

  lemma QuirkLowerHome()
    ensures ToLower("HOME") == "home"
  {
  }

  /** For instance, `### PREDICTION\nHOME\n` has the single section `prediction_home`, and it is empty. */
  lemma PredictionHomeQuirk()
    ensures Sections("### PREDICTION\nHOME\n") == map["prediction_home" := ""]
  {
    QuirkUpper();
    QuirkText();
    QuirkLowerPrediction();
    QuirkLowerHome();
    assert ToLower("PREDICTION") + "_" + ToLower("HOME") == "prediction_home";
    FirstLineJoinsName("PREDICTION", "HOME", "");
  }

  // ---------------------------------------------------------------- fields

  /** `sections.key || ''`. */
  function Field(sections: map<string, string>, key: string): (v: string)
    ensures key in sections ==> v == sections[key]
    ensures key !in sections ==> v == ""
  {
    if key in sections then sections[key] else ""
  }

  /** `parseWinner`: the first of `NO BET`, `HOME`, `AWAY`, `OVER`, `UNDER` the text contains decides. */
  function ParseWinner(text: string): (w: Option<string>)
    ensures w.Some? ==> !Contains(text, "NO BET") && w.value in {"home", "away", "over", "under"}
    ensures w == Some("home") <==> !Contains(text, "NO BET") && Contains(text, "HOME")
    ensures w == Some("away") <==> !Contains(text, "NO BET") && !Contains(text, "HOME") && Contains(text, "AWAY")
    ensures w.None? <==> (Contains(text, "NO BET")
                          || (!Contains(text, "HOME") && !Contains(text, "AWAY") && !Contains(text, "OVER") && !Contains(text, "UNDER")))
  {
    if Contains(text, "NO BET") then None
    else if Contains(text, "HOME") then Some("home")
    else if Contains(text, "AWAY") then Some("away")
    else if Contains(text, "OVER") then Some("over")
    else if Contains(text, "UNDER") then Some("under")
    else None
  }

  /** The first index `>= i` holding a digit. */
  function FirstDigitFrom(s: string, i: nat): (r: Option<nat>)
    requires i <= |s|
    ensures r.Some? ==> i <= r.value < |s| && IsDigit(s[r.value])
    ensures r.Some? ==> forall k :: i <= k < r.value ==> !IsDigit(s[k])
    ensures r.None? ==> forall k :: i <= k < |s| ==> !IsDigit(s[k])
    decreases |s| - i
  {
    if i == |s| then None
    else if IsDigit(s[i]) then Some(i)
    else FirstDigitFrom(s, i + 1)
  }

  function Pow10(n: nat): (p: nat)
    ensures p >= 1
  {
    if n == 0 then 1 else 10 * Pow10(n - 1)
  }

  /**
   * `\d+\.?\d*` read greedily at the start of `u`: its value and its length,
   * when `u` starts with a digit; `parseFloat` of that text, in exact arithmetic.
   */
  function Decimal(u: string): (r: Option<(real, nat)>)
    ensures r.Some? <==> |u| > 0 && IsDigit(u[0])
    ensures r.Some? ==> 0 < r.value.1 <= |u| && r.value.0 >= 0 as real
    ensures r.Some? ==> r.value.1 == |u| || !IsDigit(u[r.value.1])
    ensures r.Some? ==> var whole := ValueIn(u[..DigitRun(u, 10)], 10) as real;
                        whole <= r.value.0 < whole + 1 as real
  {
    var n1 := DigitRun(u, 10);
    DecimalRun(u);
    if n1 == 0 then None
    else
      var whole := ValueIn(u[..n1], 10) as real;
      if n1 < |u| && u[n1] == '.' then
        var f := Fraction(u[n1 + 1..]);
        assert f.1 < |u| - (n1 + 1) ==> u[n1 + 1 + f.1] == u[n1 + 1..][f.1];
        Some((whole + f.0, n1 + 1 + f.1))
      else Some((whole, n1))
  }

  /** The digits after a decimal point: their value as a fraction and how many there are. */
  function Fraction(frac: string): (r: (real, nat))
    ensures 0 as real <= r.0 < 1 as real && r.1 <= |frac|
    ensures r.1 == |frac| || !IsDigit(frac[r.1])
  {
    var n := DigitRun(frac, 10);
    DecimalRun(frac);
    ValueBelowPow10(frac[..n]);
    FractionBelowOne(ValueIn(frac[..n], 10), Pow10(n));
    (ValueIn(frac[..n], 10) as real / Pow10(n) as real, n)
  }

  /** n decimal digits are worth less than 10^n. */
  lemma {:induction false} ValueBelowPow10(ds: string)
    requires AllDigitsIn(ds, 10)
    ensures ValueIn(ds, 10) < Pow10(|ds|)
    decreases |ds|
  {
    if ds != [] {
      var init := ds[..|ds| - 1];
      assert AllDigitsIn(init, 10) by {
        forall k | 0 <= k < |init| ensures DigitOf(init[k]) < 10 {
          assert init[k] == ds[k];
        }
      }
      ValueBelowPow10(init);
    }
  }

  lemma FractionBelowOne(x: nat, y: nat)
    requires x < y
    ensures 0 as real <= x as real / y as real < 1 as real
  {
  }

  /** A decimal digit run is empty exactly when the text does not start with a digit, and ends before a non-digit. */
  lemma DecimalRun(s: string)
    ensures DigitRun(s, 10) > 0 <==> |s| > 0 && IsDigit(s[0])
    ensures DigitRun(s, 10) == |s| || !IsDigit(s[DigitRun(s, 10)])
  {
    if |s| > 0 {
      DigitOfDigit(s[0]);
    }
    if DigitRun(s, 10) < |s| {
      DigitOfDigit(s[DigitRun(s, 10)]);
    }
  }

  /** `parseConfidence`: the value of the first run of digits, 0 when there is none. */
  function ParseConfidence(text: string): (n: nat)
    ensures (forall k :: 0 <= k < |text| ==> !IsDigit(text[k])) ==> n == 0
  {
    match FirstDigitFrom(text, 0)
    case None => 0
    case Some(k) => ValueIn(text[k..][..DigitRun(text[k..], 10)], 10)
  }

  /** `parseTrueProbability`: the first `\d+\.?\d*` as a number, 0 when there is none. */
  function ParseTrueProbability(text: string): (p: real)
    ensures p >= 0 as real
    ensures (forall k :: 0 <= k < |text| ==> !IsDigit(text[k])) ==> p == 0 as real
  {
    match FirstDigitFrom(text, 0)
    case None => 0 as real
    case Some(k) => Decimal(text[k..]).value.0
  }

  /** `line.replace(/^-\s*\/, '')`: a dash in the first column and the spaces after it go. */
  function StripBullet(line: string): string {
    if |line| > 0 && line[0] == '-' then TrimStart(line[1..]) else line
  }

  /** The bullet removed and the rest trimmed: what `map` makes of one line. */
  function Item(line: string): string {
    Trim(StripBullet(line))
  }

  /** A line both filters let through: its trimmed text starts with a dash and its item is not empty. */
  predicate Keep(line: string) {
    StartsWith(Trim(line), "-") && Item(line) != ""
  }

  /** The filter-map-filter chain over the lines. */
  function FactorsOf(lines: seq<string>): (items: seq<string>)
    ensures |items| <= |lines|
  {
    if lines == [] then []
    else (if Keep(lines[0]) then [Item(lines[0])] else []) + FactorsOf(lines[1..])
  }

  /** A non-empty trimmed text on one line. */
  predicate GoodItem(x: string) {
    x != "" && IsTrimmed(x) && '\n' !in x
  }

  predicate GoodItems(xs: seq<string>) {
    forall k :: 0 <= k < |xs| ==> GoodItem(xs[k])
  }

  predicate OneLineEach(lines: seq<string>) {
    forall k :: 0 <= k < |lines| ==> '\n' !in lines[k]
  }

  /** `trim()` keeps no character the text lacks. */
  lemma TrimNoNewline(t: string)
    requires '\n' !in t
    ensures '\n' !in Trim(t)
  {
    var lo := TrimIsInfix(t);
    var r := Trim(t);
    forall k | 0 <= k < |r| ensures r[k] != '\n' {
      assert r[k] == t[lo + k];
    }
  }

  lemma StripNoNewline(line: string)
    requires '\n' !in line
    ensures '\n' !in StripBullet(line)
  {
    if |line| > 0 && line[0] == '-' {
      var u := line[1..];
      var t := TrimStart(u);
      TrimStartSuffix(u);
      forall k | 0 <= k < |t| ensures t[k] != '\n' {
        assert t[k] == u[|u| - |t| + k] == line[1 + |u| - |t| + k];
      }
    }
  }

  /** A kept line yields a good item. */
  lemma KeptItem(line: string)
    requires '\n' !in line && Keep(line)
    ensures GoodItem(Item(line))
  {
    TrimTrims(StripBullet(line));
    StripNoNewline(line);
    TrimNoNewline(StripBullet(line));
  }

  /** Every item `parseFactors` returns is non-empty, trimmed and on one line. */
  lemma {:induction false} FactorsOfGood(lines: seq<string>)
    requires OneLineEach(lines)
    ensures GoodItems(FactorsOf(lines))
  {
    if lines != [] {
      var tail := lines[1..];
      OneLineTail(lines);
      FactorsOfGood(tail);
      var head := if Keep(lines[0]) then [Item(lines[0])] else [];
      HeadGood(lines[0]);
      GoodAppend(head, FactorsOf(tail));
    }
  }

  lemma HeadGood(line: string)
    requires '\n' !in line
    ensures GoodItems(if Keep(line) then [Item(line)] else [])
  {
    if Keep(line) {
      KeptItem(line);
    }
  }

  lemma OneLineTail(lines: seq<string>)
    requires lines != [] && OneLineEach(lines)
    ensures OneLineEach(lines[1..])
  {
    forall k | 0 <= k < |lines| - 1 ensures '\n' !in lines[1..][k] {
      assert lines[1..][k] == lines[k + 1];
    }
  }

  lemma GoodAppend(a: seq<string>, b: seq<string>)
    requires GoodItems(a) && GoodItems(b)
    ensures GoodItems(a + b)
  {
    forall k | |a| <= k < |a + b| ensures GoodItem((a + b)[k]) {
      assert (a + b)[k] == b[k - |a|];
    }
  }

  lemma Uncons(xs: seq<string>)
    requires xs != []
    ensures xs == [xs[0]] + xs[1..]
  {
  }

  /** `parseFactors`: the bullet lines, without their bullets, in order. */
  function ParseFactors(text: string): (items: seq<string>)
    ensures |items| <= |Split(text, '\n')|
    ensures GoodItems(items)
  {
    var lines := Split(text, '\n');
    FactorsOfGood(lines);
    FactorsOf(lines)
  }

  /** The bullet list `- x` per line, its lines joined with line feeds. */
  function BulletList(items: seq<string>): (lines: seq<string>)
    ensures |lines| == |items|
    ensures forall k :: 0 <= k < |items| ==> lines[k] == "- " + items[k]
  {
    if items == [] then [] else ["- " + items[0]] + BulletList(items[1..])
  }

  /** The bullet line of a good item is kept and gives the item back. */
  lemma BulletItem(x: string)
    requires x != "" && IsTrimmed(x)
    ensures Keep("- " + x) && Item("- " + x) == x
  {
    var line := "- " + x;
    assert line[1..] == [' '] + x;
    TrimLeadingSpace(' ', x);
    TrimFixed(x);
    assert StripBullet(line) == x;
    assert line[0] == '-' && !IsSpace(line[0]);
    assert line[|line| - 1] == x[|x| - 1];
    TrimFixed(line);
    assert StartsWith(line, "-") by {
      assert line[..1] == "-";
    }
  }

  lemma {:induction false} FactorsOfBullets(items: seq<string>)
    requires GoodItems(items)
    ensures FactorsOf(BulletList(items)) == items
  {
    if items != [] {
      var lines := BulletList(items);
      assert lines[0] == "- " + items[0] && lines[1..] == BulletList(items[1..]);
      BulletItem(items[0]);
      assert GoodItems(items[1..]) by {
        forall k | 0 <= k < |items| - 1 ensures GoodItem(items[1..][k]) {
          assert items[1..][k] == items[k + 1];
        }
      }
      FactorsOfBullets(items[1..]);
      Uncons(items);
    }
  }

  /** Parsing a bullet list of good items gives the items back. */
  lemma ParseFactorsBulletList(items: seq<string>)
    requires |items| >= 1 && GoodItems(items)
    ensures ParseFactors(Join(BulletList(items), "\n")) == items
  {
    var lines := BulletList(items);
    forall k | 0 <= k < |lines| ensures '\n' !in lines[k] {
      assert lines[k] == "- " + items[k];
    }
    SplitJoin(lines, '\n');
    FactorsOfBullets(items);
  }

  // ---------------------------------------------------------------- edge score

  /** `/Edge Score:\s*([+-]?\d+\.?\d*)%/i` tried at index `p`. */
  function EdgeAt(s: string, p: nat): Option<real>
    requires p <= |s|
  {
    if HeadingAt(s, p) then PercentNumber(TrimStart(s[p + 11..])) else None
  }

  /** `Edge Score:` in any letter case at index `p`. */
  predicate HeadingAt(s: string, p: nat) {
    p + 11 <= |s| && ToLower(s[p..p + 11]) == "edge score:"
  }

  /** `[+-]?\d+\.?\d*%` at the start of `u`: the signed number before the percent sign. */
  function PercentNumber(u: string): Option<real> {
    var negative := |u| > 0 && u[0] == '-';
    var v := if |u| > 0 && (u[0] == '+' || u[0] == '-') then u[1..] else u;
    match Decimal(v)
    case None => None
    case Some(d) => if d.1 < |v| && v[d.1] == '%' then Some(if negative then -d.0 else d.0) else None
  }

  /** The leftmost match from index `i` on. */
  function EdgeFrom(s: string, i: nat): Option<real>
    requires i <= |s|
    decreases |s| - i
  {
    match EdgeAt(s, i)
    case Some(v) => Some(v)
    case None => if i == |s| then None else EdgeFrom(s, i + 1)
  }

  /** There is no match from `i` on. */
  predicate NoEdgeFrom(s: string, i: nat) {
    forall p :: i <= p <= |s| ==> EdgeAt(s, p).None?
  }

  /** The search finds nothing exactly when there is nothing to find. */
  lemma {:induction false} EdgeFromNone(s: string, i: nat)
    requires i <= |s|
    ensures EdgeFrom(s, i).None? <==> NoEdgeFrom(s, i)
    decreases |s| - i
  {
    if EdgeAt(s, i).None? && i < |s| {
      EdgeFromNone(s, i + 1);
      assert NoEdgeFrom(s, i) <==> NoEdgeFrom(s, i + 1);
    }
  }

  /** A match at `p` with none before it from `i` on is the one the search finds. */
  lemma {:induction false} EdgeFromLeftmost(s: string, i: nat, p: nat)
    requires i <= p <= |s| && EdgeAt(s, p).Some?
    requires forall q :: i <= q < p ==> EdgeAt(s, q).None?
    ensures EdgeFrom(s, i) == EdgeAt(s, p)
    decreases p - i
  {
    if i < p {
      EdgeFromLeftmost(s, i + 1, p);
    }
  }

  /** `parseEdgeCalculation`: the signed number of the first `Edge Score: N%`, in any letter case; 0 when there is none. */
  function ParseEdgeCalculation(response: string): (e: real)
    ensures NoEdgeFrom(response, 0) ==> e == 0 as real
  {
    EdgeFromNone(response, 0);
    match EdgeFrom(response, 0)
    case None => 0 as real
    case Some(v) => v
  }

  // ---------------------------------------------------------------- the record

  /** The parsed prediction. */
  datatype Prediction = Prediction(
    predictedWinner: Option<string>,
    confidenceScore: nat,
    trueProbability: real,
    recommendedBetType: string,
    recommendedLine: string,
    keyFactors: seq<string>,
    aiAnalysis: string,
    riskAssessment: string)

  /** `parseAIResponse`: never fails; a missing section gives the empty value of its field. */
  function ParseAIResponse(response: string, betType: string): (r: Prediction)
    ensures r.recommendedBetType == betType
    ensures r.trueProbability >= 0 as real
    ensures r.recommendedLine == Field(Sections(response), "recommended_bet")
    ensures r.aiAnalysis == Field(Sections(response), "detailed_analysis")
    ensures r.riskAssessment == Field(Sections(response), "risk_assessment")
    ensures "prediction" !in Sections(response) ==> r.predictedWinner.None?
    ensures "confidence_level" !in Sections(response) ==> r.confidenceScore == 0
    ensures "true_probability_estimate" !in Sections(response) ==> r.trueProbability == 0 as real
    ensures "key_factors" !in Sections(response) ==> r.keyFactors == []
  {
    var sections := Sections(response);
    Prediction(
      ParseWinner(Field(sections, "prediction")),
      ParseConfidence(Field(sections, "confidence_level")),
      ParseTrueProbability(Field(sections, "true_probability_estimate")),
      betType,
      Field(sections, "recommended_bet"),
      ParseFactors(Field(sections, "key_factors")),
      Field(sections, "detailed_analysis"),
      Field(sections, "risk_assessment"))
  }

  /** `validateParsedPrediction`. */
  function ValidateParsedPrediction(p: Prediction): (ok: bool)
    ensures ok <==> p.confidenceScore > 0 && p.aiAnalysis != "" && |p.keyFactors| > 0
  {
    p.confidenceScore > 0 && p.aiAnalysis != "" && |p.keyFactors| > 0
  }

  // ---------------------------------------------------------------- read-back lemmas

  /**
   * A parsed response validates exactly when its confidence section reads as a positive number,
   * its analysis section is not empty and its factors section has a bullet; so a validated
   * response had all three sections.
   */
  lemma ValidatedSections(response: string, betType: string)
    ensures var sections := Sections(response);
            ValidateParsedPrediction(ParseAIResponse(response, betType)) <==>
              ParseConfidence(Field(sections, "confidence_level")) > 0 &&
              Field(sections, "detailed_analysis") != "" &&
              ParseFactors(Field(sections, "key_factors")) != []
    ensures ValidateParsedPrediction(ParseAIResponse(response, betType)) ==>
              "confidence_level" in Sections(response) &&
              "detailed_analysis" in Sections(response) &&
              "key_factors" in Sections(response)
  {
  }

  /**
   * A response whose confidence section holds a positive number, whose analysis is not empty
   * and whose factors section is a bullet list validates, with that number and those factors.
   */
  lemma ValidatesWellFormed(response: string, betType: string, prefix: string, n: nat, rest: string, items: seq<string>)
    requires forall k :: 0 <= k < |prefix| ==> !IsDigit(prefix[k])
    requires rest == [] || !IsDigit(rest[0])
    requires n > 0 && |items| >= 1 && GoodItems(items)
    requires "confidence_level" in Sections(response)
    requires Sections(response)["confidence_level"] == prefix + NatToString(n) + rest
    requires "detailed_analysis" in Sections(response) && Sections(response)["detailed_analysis"] != ""
    requires "key_factors" in Sections(response)
    requires Sections(response)["key_factors"] == Join(BulletList(items), "\n")
    ensures ValidateParsedPrediction(ParseAIResponse(response, betType))
    ensures ParseAIResponse(response, betType).confidenceScore == n
    ensures ParseAIResponse(response, betType).keyFactors == items
  {
    ConfidenceReadsNumber(prefix, n, rest);
    ParseFactorsBulletList(items);
  }

  lemma DigitOfDigit(c: char)
    ensures IsDigit(c) <==> DigitOf(c) < 10
  {
  }

  /** The digits of `String(n)` read back, whatever digit-free text precedes them. */
  lemma {:induction false} ConfidenceReadsNumber(prefix: string, n: nat, rest: string)
    requires forall k :: 0 <= k < |prefix| ==> !IsDigit(prefix[k])
    requires rest == [] || !IsDigit(rest[0])
    ensures ParseConfidence(prefix + NatToString(n) + rest) == n
  {
    var d := NatToString(n);
    var s := prefix + d + rest;
    DigitOfDigit(d[0]);
    assert s[|prefix|] == d[0];
    assert FirstDigitFrom(s, 0) == Some(|prefix|) by {
      FirstDigitSkips(s, 0, |prefix|);
    }
    assert s[|prefix|..] == d + rest;
    DigitRunExact(d, rest);
    assert (d + rest)[..|d|] == d;
    NatToStringValue(n);
  }

  lemma {:induction false} FirstDigitSkips(s: string, i: nat, k: nat)
    requires i <= k < |s| && IsDigit(s[k])
    requires forall j :: i <= j < k ==> !IsDigit(s[j])
    ensures FirstDigitFrom(s, i) == Some(k)
    decreases k - i
  {
    if i < k {
      FirstDigitSkips(s, i + 1, k);
    }
  }

  /** The digit run of `d + rest` is `d` when `rest` does not continue it. */
  lemma {:induction false} DigitRunExact(d: string, rest: string)
    requires AllDigitsIn(d, 10)
    requires rest == [] || !IsDigit(rest[0])
    ensures DigitRun(d + rest, 10) == |d|
  {
    if d == [] {
      assert d + rest == rest;
      if rest != [] {
        DigitOfDigit(rest[0]);
      }
    } else {
      assert (d + rest)[1..] == d[1..] + rest;
      DigitRunExact(d[1..], rest);
    }
  }

  lemma EdgeLiteral()
    ensures ToLower("Edge Score:") == "edge score:"
  {
  }

  /** Text after `Edge Score:` is read by `PercentNumber` once its leading spaces are gone. */
  lemma EdgeHeading(x: string)
    ensures EdgeAt("Edge Score:" + x, 0) == PercentNumber(TrimStart(x))
  {
    var s := "Edge Score:" + x;
    assert s[0..11] == "Edge Score:" && s[11..] == x;
    EdgeLiteral();
  }

  /** The whole-number part is everything when neither a digit nor a point follows. */
  lemma DecimalWhole(d: string, rest: string)
    requires d != [] && AllDigitsIn(d, 10)
    requires rest == [] || (!IsDigit(rest[0]) && rest[0] != '.')
    ensures Decimal(d + rest) == Some((ValueIn(d, 10) as real, |d|))
  {
    DigitRunExact(d, rest);
    assert (d + rest)[..|d|] == d;
    if rest != [] {
      assert (d + rest)[|d|] == rest[0];
    }
    DigitOfDigit(d[0]);
  }

  /** Where a point follows the digit run, the fraction after it is added. */
  lemma DecimalAtPoint(u: string)
    requires 0 < DigitRun(u, 10) < |u| && u[DigitRun(u, 10)] == '.'
    ensures var n := DigitRun(u, 10); var f := Fraction(u[n + 1..]);
            Decimal(u).Some? && Decimal(u).value.0 == ValueIn(u[..n], 10) as real + f.0
            && Decimal(u).value.1 == n + 1 + f.1
  {
  }

  /** The fraction of exactly the digits `f`. */
  lemma FractionOf(f: string, rest: string)
    requires AllDigitsIn(f, 10)
    requires rest == [] || !IsDigit(rest[0])
    ensures Fraction(f + rest) == (ValueIn(f, 10) as real / Pow10(|f|) as real, |f|)
  {
    DigitRunExact(f, rest);
    assert (f + rest)[..|f|] == f;
  }

  /** Digits, a point and more digits read as the whole part plus the fraction. */
  lemma DecimalPoint(u: string, a: string, f: string, rest: string)
    requires a != [] && AllDigitsIn(a, 10) && AllDigitsIn(f, 10)
    requires rest == [] || !IsDigit(rest[0])
    requires u == a + "." + f + rest
    ensures Decimal(u).Some?
    ensures Decimal(u).value.0 == ValueIn(a, 10) as real + ValueIn(f, 10) as real / Pow10(|f|) as real
    ensures Decimal(u).value.1 == |a| + 1 + |f|
  {
    PointSplit(a, f, rest);
    DecimalAtPoint(u);
    FractionOf(f, rest);
  }

  /** How `a.f` followed by `rest` splits around its point. */
  lemma PointSplit(a: string, f: string, rest: string)
    requires AllDigitsIn(a, 10)
    ensures var u := a + "." + f + rest;
            u[..|a|] == a && |a| < |u| && u[|a|] == '.' && u[|a| + 1..] == f + rest && DigitRun(u, 10) == |a|
  {
    var u := a + "." + f + rest;
    var tail := "." + f + rest;
    assert u == a + tail;
    DigitOfDigit('.');
    DigitRunExact(a, tail);
    assert u[|a| + 1..] == f + rest;
  }

  /** A number after digit-free text is what `parseTrueProbability` finds. */
  lemma {:induction false} ProbabilityAfter(prefix: string, u: string)
    requires forall k :: 0 <= k < |prefix| ==> !IsDigit(prefix[k])
    requires u != [] && IsDigit(u[0])
    ensures ParseTrueProbability(prefix + u) == Decimal(u).value.0
  {
    var s := prefix + u;
    assert s[|prefix|] == u[0];
    FirstDigitSkips(s, 0, |prefix|);
    assert s[|prefix|..] == u;
  }

  /** A whole number after digit-free text reads back as that number. */
  lemma ProbabilityReadsWhole(prefix: string, a: string, rest: string)
    requires forall k :: 0 <= k < |prefix| ==> !IsDigit(prefix[k])
    requires a != [] && AllDigitsIn(a, 10)
    requires rest == [] || (!IsDigit(rest[0]) && rest[0] != '.')
    ensures ParseTrueProbability(prefix + a + rest) == ValueIn(a, 10) as real
  {
    DecimalWhole(a, rest);
    DigitOfDigit(a[0]);
    assert (a + rest)[0] == a[0];
    ProbabilityAfter(prefix, a + rest);
    assert prefix + a + rest == prefix + (a + rest);
  }

  /** A decimal number after digit-free text reads back as whole part plus fraction. */
  lemma ProbabilityReadsDecimal(text: string, prefix: string, a: string, f: string, rest: string)
    requires forall k :: 0 <= k < |prefix| ==> !IsDigit(prefix[k])
    requires a != [] && AllDigitsIn(a, 10) && AllDigitsIn(f, 10)
    requires rest == [] || !IsDigit(rest[0])
    requires text == prefix + a + "." + f + rest
    ensures ParseTrueProbability(text) == ValueIn(a, 10) as real + ValueIn(f, 10) as real / Pow10(|f|) as real
  {
    var u := a + "." + f + rest;
    DecimalPoint(u, a, f, rest);
    PointSplit(a, f, rest);
    DigitOfDigit(a[0]);
    assert u[0] == a[0];
    ProbabilityAfter(prefix, u);
    PrefixRegroup(prefix, a, f, rest);
  }

  /** Regrouping the text as the prefix followed by the decimal number. */
  lemma PrefixRegroup(prefix: string, a: string, f: string, rest: string)
    ensures prefix + a + "." + f + rest == prefix + (a + "." + f + rest)
  {
    var p1 := prefix + a;
    var p2 := p1 + ".";
    var p3 := p2 + f;
    assert p1 == prefix + a;
    assert p2 == prefix + (a + ".");
    assert p3 == prefix + (a + "." + f);
    assert p3 + rest == prefix + (a + "." + f + rest);
  }

  /** For instance, `about 12.5%` reads as 12.5. */
  lemma ProbabilityExample()
    ensures ParseTrueProbability("about 12.5%") == 12.5
  {
    ExampleDigits();
    ProbabilityReadsDecimal("about 12.5%", "about ", "12", "5", "%");
    var whole, digits, scale := ValueIn("12", 10), ValueIn("5", 10), Pow10(|"5"|);
    TwelveAndAHalf(whole, digits, scale);
  }

  lemma TwelveAndAHalf(whole: nat, digits: nat, scale: nat)
    requires whole == 12 && digits == 5 && scale == 10
    ensures whole as real + digits as real / scale as real == 12.5
  {
  }

  lemma ExampleDigits()
    ensures AllDigitsIn("12", 10) && AllDigitsIn("5", 10)
    ensures ValueIn("12", 10) == 12 && ValueIn("5", 10) == 5 && Pow10(1) == 10
  {
    assert "12"[..1] == "1";
    assert "1"[..0] == "" && "5"[..0] == "";
  }

  /** The digits of `String(n)` followed by `%` read as n. */
  lemma DecimalOfNat(n: nat)
    ensures Decimal(NatToString(n) + "%") == Some((n as real, |NatToString(n)|))
  {
    var d := NatToString(n);
    DigitOfDigit(d[0]);
    DecimalWhole(d, "%");
    NatToStringValue(n);
  }

  lemma PercentUnsigned(v: string, x: real, l: nat)
    requires Decimal(v) == Some((x, l)) && l < |v| && v[l] == '%' && v[0] != '-' && v[0] != '+'
    ensures PercentNumber(v) == Some(x)
  {
  }

  lemma PercentNegative(v: string, x: real, l: nat)
    requires Decimal(v) == Some((x, l)) && l < |v| && v[l] == '%'
    ensures PercentNumber("-" + v) == Some(-x)
  {
    assert ("-" + v)[1..] == v;
  }

  /** `N%` reads as N. */
  lemma PercentReadsNat(n: nat)
    ensures PercentNumber(NatToString(n) + "%") == Some(n as real)
  {
    var d := NatToString(n);
    var v := d + "%";
    DecimalOfNat(n);
    assert v[|d|] == '%';
    assert v[0] == d[0];
    DigitOfDigit(d[0]);
    PercentUnsigned(v, n as real, |d|);
  }

  /** `-N%` reads as -N. */
  lemma PercentReadsNegative(n: nat)
    ensures PercentNumber("-" + NatToString(n) + "%") == Some(-(n as real))
  {
    var d := NatToString(n);
    var v := d + "%";
    DecimalOfNat(n);
    assert v[|d|] == '%';
    PercentNegative(v, n as real, |d|);
    assert "-" + d + "%" == "-" + v;
  }

  /** Spaces after the colon are skipped before the number is read. */
  lemma EdgeScoreSpace(w: string)
    requires w != [] && (w[0] == '-' || IsDigit(w[0]))
    ensures EdgeAt("Edge Score: " + w, 0) == PercentNumber(w)
  {
    assert "Edge Score: " + w == "Edge Score:" + ([' '] + w);
    TrimLeadingSpace(' ', w);
    NoSpaceHead(w);
    EdgeHeading([' '] + w);
  }

  /** A match at the very start is the one `match` finds. */
  lemma EdgeAtStart(s: string, x: real)
    requires EdgeAt(s, 0) == Some(x)
    ensures ParseEdgeCalculation(s) == x
  {
  }

  /** `Edge Score: ` followed by a number with a percent sign reads back as that number. */
  lemma EdgeScoreOf(w: string, x: real)
    requires w != [] && (w[0] == '-' || IsDigit(w[0])) && PercentNumber(w) == Some(x)
    ensures ParseEdgeCalculation("Edge Score: " + w) == x
  {
    EdgeScoreSpace(w);
    EdgeAtStart("Edge Score: " + w, x);
  }

  /** `Edge Score: N%` reads back as N, for every integer N written by `String`. */
  lemma EdgeScoreReadsNumber(v: int)
    ensures ParseEdgeCalculation("Edge Score: " + IntToString(v) + "%") == v as real
  {
    if v < 0 {
      EdgeScoreReadsNegative(v);
    } else {
      EdgeScoreReadsNat(v);
    }
  }

  /** The negative case: `String(v)` is `-` and the digits of `-v`. */
  lemma EdgeScoreReadsNegative(v: int)
    requires v < 0
    ensures ParseEdgeCalculation("Edge Score: " + IntToString(v) + "%") == v as real
  {
    var w := IntToString(v) + "%";
    assert "Edge Score: " + IntToString(v) + "%" == "Edge Score: " + w;
    var n: nat := -v;
    var d := NatToString(n);
    assert w == "-" + d + "%";
    PercentReadsNegative(n);
    EdgeScoreOf(w, -(n as real));
  }

  /** The case of a natural number: `String(n)` is its digits. */
  lemma EdgeScoreReadsNat(n: nat)
    ensures ParseEdgeCalculation("Edge Score: " + IntToString(n) + "%") == n as real
  {
    var w := IntToString(n) + "%";
    assert "Edge Score: " + IntToString(n) + "%" == "Edge Score: " + w;
    var d := NatToString(n);
    assert w == d + "%" && w[0] == d[0];
    DigitOfDigit(d[0]);
    PercentReadsNat(n);
    EdgeScoreOf(w, n as real);
  }

}
