/**
 * The display helpers: odds with their sign, edge and confidence colour
 * classes, shortened team names and text, readable sport and bet-type names,
 * win–loss records and win rates.
 */
module Format {
  import opened Wrappers
  import opened JsText

  // ---------------------------------------------------------------- formatOdds

  /** American odds with a `+` in front of a positive price; zero and negative prices print as they are. */
  function FormatOdds(odds: int): (s: string)
    ensures |s| > 0
    ensures s[0] == '+' <==> odds > 0
    ensures s[0] == '-' <==> odds < 0
  {
    if odds > 0 then "+" + IntToString(odds) else IntToString(odds)
  }

  /** Reading the text back with `parseInt` gives the odds again. */
  lemma FormatOddsParses(odds: int)
    ensures ParseInt(FormatOdds(odds)) == Some(odds)
  {
    var sign := OddsSign(odds);
    var n: nat := if odds < 0 then -odds else odds;
    FormatOddsText(odds);
    ParseIntNatToString(n, sign);
  }

  /** The sign the text starts with: `+`, `-`, or none for zero. */
  function OddsSign(odds: int): (p: string)
    ensures p == "" || p == "+" || p == "-"
    ensures p == "-" <==> odds < 0
  {
    if odds > 0 then "+" else if odds < 0 then "-" else ""
  }

  /** The text is the sign followed by the decimal digits of the magnitude. */
  lemma FormatOddsText(odds: int)
    ensures FormatOdds(odds) == OddsSign(odds) + NatToString(if odds < 0 then -odds else odds)
  {
    if odds == 0 {
      assert "" + NatToString(0) == NatToString(0);
    }
  }

  // ---------------------------------------------------------------- formatEdge

  const EdgeStrong: string := "text-green-600 font-bold"
  const EdgeGood: string := "text-green-600"
  const EdgeThin: string := "text-yellow-600"
  const EdgeNegative: string := "text-red-600"

  /** The edge's colour class: bold green from 5, green from 2, yellow from 0, red below. */
  function EdgeClass(edge: real): (c: string)
    ensures c == EdgeStrong <==> edge >= 5.0
    ensures c == EdgeGood <==> 2.0 <= edge < 5.0
    ensures c == EdgeThin <==> 0.0 <= edge < 2.0
    ensures c == EdgeNegative <==> edge < 0.0
  {
    if edge >= 5.0 then EdgeStrong
    else if edge >= 2.0 then EdgeGood
    else if edge >= 0.0 then EdgeThin
    else EdgeNegative
  }

  /** The edge with one decimal and a percent sign, with a `+` in front of a positive edge. */
  function EdgeText(edge: real): (s: string)
    ensures |s| > 0 && s[|s| - 1] == '%'
  {
    if edge > 0.0 then "+" + ToFixed1(edge) + "%" else ToFixed1(edge) + "%"
  }

  /** The text starts with `+` exactly for a positive edge, and with `-` for a negative one. */
  lemma EdgeTextSign(edge: real)
    ensures EdgeText(edge)[0] == '+' <==> edge > 0.0
    ensures edge < 0.0 ==> EdgeText(edge)[0] == '-'
  {
    if edge <= 0.0 {
      if edge < 0.0 {
        assert ToFixed1(edge)[0] == '-';
      } else {
        TenthsTextStartsWithDigit(NearestTenths(edge));
      }
    }
  }

  lemma TenthsTextStartsWithDigit(n: nat)
    ensures '0' <= TenthsText(n)[0] <= '9'
  {
    var d := NatToString(n / 10);
    assert TenthsText(n)[0] == d[0];
    assert d[0] in d;
    NatToStringDigits(n / 10);
  }

  lemma NatToStringDigits(n: nat)
    ensures forall i :: 0 <= i < |NatToString(n)| ==> '0' <= NatToString(n)[i] <= '9'
  {
    if n >= 10 {
      NatToStringDigits(n / 10);
    }
  }

  /** `formatEdge`: the edge's text and colour class. */
  datatype EdgeDisplay = EdgeDisplay(text: string, className: string)

  function FormatEdge(edge: real): (d: EdgeDisplay)
    ensures d.className == EdgeClass(edge) && d.text == EdgeText(edge)
  {
    EdgeDisplay(EdgeText(edge), EdgeClass(edge))
  }

  // ---------------------------------------------------------------- formatConfidence

  /** The four colour bands of a confidence score. */
  datatype ConfidenceClass = ConfidenceClass(bgClass: string, textClass: string)

  const ConfidenceHigh := ConfidenceClass("bg-green-100", "text-green-800")
  const ConfidenceGood := ConfidenceClass("bg-blue-100", "text-blue-800")
  const ConfidenceFair := ConfidenceClass("bg-yellow-100", "text-yellow-800")
  const ConfidenceLow := ConfidenceClass("bg-red-100", "text-red-800")

  /** Green from 90, blue from 75, yellow from 65, red below. */
  function FormatConfidenceClass(confidence: real): (c: ConfidenceClass)
    ensures c == ConfidenceHigh <==> confidence >= 90.0
    ensures c == ConfidenceGood <==> 75.0 <= confidence < 90.0
    ensures c == ConfidenceFair <==> 65.0 <= confidence < 75.0
    ensures c == ConfidenceLow <==> confidence < 65.0
  {
    if confidence >= 90.0 then ConfidenceHigh
    else if confidence >= 75.0 then ConfidenceGood
    else if confidence >= 65.0 then ConfidenceFair
    else ConfidenceLow
  }

  /** A higher confidence never gets a lower band. */
  function Band(c: ConfidenceClass): nat {
    if c == ConfidenceHigh then 3 else if c == ConfidenceGood then 2 else if c == ConfidenceFair then 1 else 0
  }

  lemma ConfidenceClassMonotone(a: real, b: real)
    requires a <= b
    ensures Band(FormatConfidenceClass(a)) <= Band(FormatConfidenceClass(b))
  {
  }

  // ---------------------------------------------------------------- truncate and formatTeamName

  const Ellipsis: string := "..."

  /** `substring(0, n)`: a negative end counts as zero, an end past the text as its length. */
  function Prefix(s: string, n: int): (p: string)
    ensures |p| == if n < 0 then 0 else if n > |s| then |s| else n
    ensures p <= s
  {
    if n < 0 then [] else if n > |s| then s else s[..n]
  }

  /** The text when it fits in `maxLength`, else its first `maxLength` characters and `...`. */
  function Truncate(text: string, maxLength: int): (r: string)
    ensures |text| <= maxLength ==> r == text
    ensures |text| > maxLength ==> r == Prefix(text, maxLength) + Ellipsis
  {
    if |text| <= maxLength then text else Prefix(text, maxLength) + Ellipsis
  }

  /** A truncated text is a prefix of the original plus `...`, `maxLength + 3` long. */
  lemma TruncateShape(text: string, maxLength: nat)
    requires |text| > maxLength
    ensures var r := Truncate(text, maxLength);
      |r| == maxLength + 3 && r[..maxLength] == text[..maxLength] && r[maxLength..] == Ellipsis
  {
  }

  /** Text that fits comes back unchanged, however often it is truncated. */
  lemma TruncateFits(text: string, maxLength: int)
    requires |text| <= maxLength
    ensures Truncate(Truncate(text, maxLength), maxLength) == text
  {
  }

  /** The default `maxLength` of `formatTeamName`. */
  const TeamNameMax: int := 20

  /**
   * A name that fits stays as it is. A longer name with a space becomes the
   * text after its last space, which is shorter than the name and has no
   * space; a longer name without one is truncated.
   */
  function FormatTeamName(teamName: string, maxLength: int): (r: string)
    ensures |teamName| <= maxLength ==> r == teamName
    ensures |teamName| > maxLength && ' ' in teamName ==>
              |r| < |teamName| && r == teamName[|teamName| - |r|..] && teamName[|teamName| - |r| - 1] == ' ' && ' ' !in r
    ensures |teamName| > maxLength && ' ' !in teamName ==> r == Truncate(teamName, maxLength)
  {
    if |teamName| <= maxLength then teamName
    else
      var parts := Split(teamName, ' ');
      SplitLast(teamName, ' ');
      if |parts| > 1 then parts[|parts| - 1]
      else Prefix(teamName, maxLength) + Ellipsis
  }

  // ---------------------------------------------------------------- formatSportName and formatBetType

  const SportNames: map<string, string> := map[
    "nfl" := "NFL",
    "nba" := "NBA",
    "ncaaf" := "NCAA Football",
    "ncaab" := "NCAA Basketball",
    "mlb" := "MLB",
    "nhl" := "NHL",
    "americanfootball_nfl" := "NFL",
    "basketball_nba" := "NBA",
    "americanfootball_ncaa" := "NCAA Football",
    "basketball_ncaab" := "NCAA Basketball",
    "baseball_mlb" := "MLB",
    "icehockey_nhl" := "NHL"
  ]

  const BetTypes: map<string, string> := map[
    "moneyline" := "Moneyline",
    "spread" := "Spread",
    "total" := "Over/Under",
    "over_under" := "Over/Under",
    "parlay" := "Parlay",
    "prop" := "Player Prop"
  ]

  /** `table[key] || fallback`: the table's text unless the key is absent or its text is empty. */
  function LookupOr(table: map<string, string>, key: string, fallback: string): (r: string)
    ensures key in table && table[key] != "" ==> r == table[key]
    ensures key !in table || table[key] == "" ==> r == fallback
  {
    if key in table && table[key] != "" then table[key] else fallback
  }

  /** The readable sport name, or the key in capitals when the table has none. */
  function FormatSportName(sportKey: string): (r: string)
    ensures sportKey in SportNames ==> r == SportNames[sportKey]
    ensures sportKey !in SportNames ==> r == ToUpper(sportKey)
  {
    TablesHaveText();
    LookupOr(SportNames, sportKey, ToUpper(sportKey))
  }

  /** The readable bet type, or the bet type itself when the table has none. */
  function FormatBetType(betType: string): (r: string)
    ensures betType in BetTypes ==> r == BetTypes[betType]
    ensures betType !in BetTypes ==> r == betType
  {
    TablesHaveText();
    LookupOr(BetTypes, betType, betType)
  }

  /** Every entry of both tables is non-empty, so the fallback is taken exactly for a missing key. */
  lemma TablesHaveText()
    ensures forall k :: k in SportNames ==> SportNames[k] != ""
    ensures forall k :: k in BetTypes ==> BetTypes[k] != ""
  {
  }

  /** Short and long keys of the same sport read the same, and both over/under spellings agree. */
  lemma SynonymsAgree()
    ensures FormatSportName("nfl") == FormatSportName("americanfootball_nfl")
    ensures FormatSportName("ncaab") == FormatSportName("basketball_ncaab")
    ensures FormatBetType("total") == FormatBetType("over_under")
  {
  }

  // ---------------------------------------------------------------- formatRecord and formatWinRate

  /** `w-l-t` when there are ties, else `w-l`: the counts joined with `-`. */
  function FormatRecord(wins: int, losses: int, ties: int): (r: string)
    ensures r == Join([IntToString(wins), IntToString(losses)] + (if ties > 0 then [IntToString(ties)] else []), "-")
  {
    var w, l, t := IntToString(wins), IntToString(losses), IntToString(ties);
    JoinTwo(w, l);
    JoinThree(w, l, t);
    assert [w, l] + [t] == [w, l, t];
    assert [w, l] + [] == [w, l];
    if ties > 0 then w + "-" + l + "-" + t
    else w + "-" + l
  }

  /** Split at `-`, a record of counts gives back its counts, with the ties only when there are some. */
  lemma FormatRecordSplits(wins: nat, losses: nat, ties: nat)
    ensures Split(FormatRecord(wins, losses, ties), '-')
         == [NatToString(wins), NatToString(losses)] + (if ties > 0 then [NatToString(ties)] else [])
  {
    var w, l, t := NatToString(wins), NatToString(losses), NatToString(ties);
    NoDash(wins);
    NoDash(losses);
    NoDash(ties);
    if ties > 0 {
      JoinThree(w, l, t);
      SplitJoin([w, l, t], '-');
      assert [w, l] + [t] == [w, l, t];
    } else {
      JoinTwo(w, l);
      SplitJoin([w, l], '-');
      assert [w, l] + [] == [w, l];
    }
  }

  /** The decimal text of a count has no `-`. */
  lemma NoDash(n: nat)
    ensures '-' !in NatToString(n)
  {
    NatToStringDigits(n);
  }

  lemma JoinTwo(a: string, b: string)
    ensures Join([a, b], "-") == a + "-" + b
  {
    assert [a, b][1..] == [b];
  }

  lemma JoinThree(a: string, b: string, c: string)
    ensures Join([a, b, c], "-") == a + "-" + b + "-" + c
  {
    assert [a, b, c][1..] == [b, c];
    JoinTwo(b, c);
  }

  /**
   * `0.0%` for no games, else the share of wins in percent with one decimal:
   * for no games the text is the one a zero rate would print, never a
   * division by zero.
   */
  function FormatWinRate(wins: int, total: int): (r: string)
    ensures total == 0 ==> r == ToFixed1(0.0) + "%"
    ensures total != 0 ==> r == ToFixed1(wins as real / total as real * 100.0) + "%"
  {
    ToFixed1Exact(0);
    assert TenthsText(0) == "0.0";
    if total == 0 then "0.0%" else ToFixed1(wins as real / total as real * 100.0) + "%"
  }
}
