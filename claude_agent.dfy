/**
 * The pure members of the `ClaudeAgent` class: its own section parser for
 * the analyst's answer, the placeholder edge score, the confidence/edge gate
 * that rewrites a parsed prediction in place, its placeholder substitution
 * and its default prompt template.
 */
module ClaudeAgent {
  import opened Wrappers
  import opened JsText
  import ResponseParser
  import PromptBuilder
  import EdgeCalculator

  // ---------------------------------------------------------------- sections

  /**
   * `response.match(/### HEADING\s*(.*?)(?=###|$)/s)`, group 1 trimmed, for
   * `heading` the whole `### HEADING`: its first occurrence, then everything
   * up to the next `###` or the end of the text. The `\s*` only moves
   * whitespace that `trim` drops.
   */
  function LiteralSection(response: string, heading: string): (r: Option<string>)
    ensures r.None? <==> !Contains(response, heading)
    ensures r.Some? ==> IsTrimmed(r.value)
  {
    match IndexOf(response, heading)
    case None => None
    case Some(i) => Some(BodyAfter(response, i + |heading|))
  }

  /** The trimmed text from `q` to the first `###` at or after it, or to the end. */
  function BodyAfter(response: string, q: nat): (body: string)
    requires q <= |response|
    ensures IsTrimmed(body)
  {
    TrimmedResult(response[q..ResponseParser.BodyEnd(response, q)]);
    Trim(response[q..ResponseParser.BodyEnd(response, q)])
  }

  /** A heading whose first occurrence is at `i` gives the body after it. */
  lemma LiteralSectionAt(response: string, heading: string, i: nat)
    requires OccursAt(response, heading, i)
    requires forall j :: 0 <= j < i ==> !OccursAt(response, heading, j)
    ensures LiteralSection(response, heading) == Some(BodyAfter(response, i + |heading|))
  {
    IndexOfFirst(response, heading, i);
  }

  /** The body after `q` ends at the first `###`, or at the end of the text. */
  lemma BodyAfterEndsAt(response: string, q: nat, k: nat)
    requires q <= k <= |response|
    requires k == |response| || OccursAt(response, "###", k)
    requires ResponseParser.NoHeadingIn(response, q, k)
    ensures BodyAfter(response, q) == Trim(response[q..k])
  {
    ResponseParser.BodyEndAt(response, q, k);
  }

  // ---------------------------------------------------------------- parseAIResponse

  /** The `predictedWinner` rule: `NO BET` wins, then `HOME`; anything else, even nothing, is the away side. */
  function Winner(prediction: string): (w: Option<string>)
    ensures w.None? <==> Contains(prediction, "NO BET")
    ensures w == Some("home") <==> !Contains(prediction, "NO BET") && Contains(prediction, "HOME")
    ensures w == Some("away") <==> !Contains(prediction, "NO BET") && !Contains(prediction, "HOME")
  {
    if Contains(prediction, "NO BET") then None
    else if Contains(prediction, "HOME") then Some("home")
    else Some("away")
  }

  /** What `parseAIResponse` returns. */
  datatype Parsed = Parsed(
    predictedWinner: Option<string>,
    confidenceScore: nat,
    trueProbability: real,
    recommendedLine: string,
    keyFactors: seq<string>,
    aiAnalysis: string,
    riskAssessment: string)

  /** The defaults the source substitutes for a missing section read as zero or as no factors. */
  lemma Defaults()
    ensures ResponseParser.ParseConfidence("0") == 0
    ensures ResponseParser.ParseTrueProbability("0") == 0 as real
    ensures ResponseParser.ParseFactors("") == []
  {
    assert Split("", '\n') == [""];
  }

  /**
   * `parseAIResponse`: each field from its own section, with the numbers and
   * factors read as in the shared parser; `betType` is not used.
   */
  function ParseAIResponse(response: string, betType: string): (r: Parsed)
    ensures r.predictedWinner == Winner(LiteralSection(response, "### PREDICTION").GetOr(""))
    ensures r.trueProbability >= 0 as real
    ensures r.recommendedLine == LiteralSection(response, "### RECOMMENDED BET").GetOr("NO BET")
    ensures ResponseParser.GoodItems(r.keyFactors)
    ensures r.aiAnalysis == LiteralSection(response, "### DETAILED ANALYSIS").GetOr("")
    ensures r.riskAssessment == LiteralSection(response, "### RISK ASSESSMENT").GetOr("")
  {
    var prediction := LiteralSection(response, "### PREDICTION").GetOr("");
    var confidenceText := LiteralSection(response, "### CONFIDENCE LEVEL").GetOr("0");
    var probabilityText := LiteralSection(response, "### TRUE PROBABILITY ESTIMATE").GetOr("0");
    var factorsText := LiteralSection(response, "### KEY FACTORS").GetOr("");
    Parsed(
      Winner(prediction),
      ResponseParser.ParseConfidence(confidenceText),
      ResponseParser.ParseTrueProbability(probabilityText),
      LiteralSection(response, "### RECOMMENDED BET").GetOr("NO BET"),
      ResponseParser.ParseFactors(factorsText),
      LiteralSection(response, "### DETAILED ANALYSIS").GetOr(""),
      LiteralSection(response, "### RISK ASSESSMENT").GetOr(""))
  }

  /**
   * Parsing never fails: a missing prediction reads as away, a missing
   * confidence or probability as 0, missing factors as none, and a missing
   * line, analysis or risk as `NO BET`, `''` and `''`.
   */
  lemma MissingSections(response: string, betType: string)
    ensures var r := ParseAIResponse(response, betType);
      && (!Contains(response, "### PREDICTION") ==> r.predictedWinner == Some("away"))
      && (!Contains(response, "### CONFIDENCE LEVEL") ==> r.confidenceScore == 0)
      && (!Contains(response, "### TRUE PROBABILITY ESTIMATE") ==> r.trueProbability == 0 as real)
      && (!Contains(response, "### KEY FACTORS") ==> r.keyFactors == [])
      && (!Contains(response, "### RECOMMENDED BET") ==> r.recommendedLine == "NO BET")
      && (!Contains(response, "### DETAILED ANALYSIS") ==> r.aiAnalysis == "")
      && (!Contains(response, "### RISK ASSESSMENT") ==> r.riskAssessment == "")
  {
    Defaults();
    assert !Contains("", "NO BET") && !Contains("", "HOME");
  }

  /**
   * Where the two parsers part: with no `NO BET` and no `HOME` this one says
   * away, while the shared parser says away only when `AWAY` is present.
   */
  lemma WinnerDefaultsToAway(prediction: string)
    requires !Contains(prediction, "NO BET") && !Contains(prediction, "HOME")
    ensures Winner(prediction) == Some("away")
    ensures ResponseParser.ParseWinner(prediction) == Some("away") <==> Contains(prediction, "AWAY")
  {
  }

  /** On every text the two parsers agree about `NO BET` and `HOME`. */
  lemma WinnersAgreeOnNoBetAndHome(prediction: string)
    ensures Contains(prediction, "NO BET") ==> Winner(prediction).None? && ResponseParser.ParseWinner(prediction).None?
    ensures Winner(prediction) == Some("home") <==> ResponseParser.ParseWinner(prediction) == Some("home")
  {
  }

  /**
   * The two parsers on the same answer: an upper-case first body line is read
   * as the prediction here, while the shared parser folds it into the
   * section name and reports no winner.
   */
  lemma ParsersDisagreeOnHome(betType: string)
    ensures ParseAIResponse("### PREDICTION\nHOME\n", betType).predictedWinner == Some("home")
    ensures ResponseParser.ParseAIResponse("### PREDICTION\nHOME\n", betType).predictedWinner.None?
  {
    HomeSection();
    ReadsHome("### PREDICTION\nHOME\n", betType);
    ResponseParser.PredictionHomeQuirk();
    NoPredictionSection("### PREDICTION\nHOME\n", betType);
  }

  /** A prediction section reading `HOME` gives the home side. */
  lemma ReadsHome(s: string, betType: string)
    requires LiteralSection(s, "### PREDICTION") == Some("HOME")
    ensures ParseAIResponse(s, betType).predictedWinner == Some("home")
  {
    WinnerHome();
    var r := ParseAIResponse(s, betType);
    assert r.predictedWinner == Winner("HOME");
  }

  lemma WinnerHome()
    ensures Winner("HOME") == Some("home")
  {
    assert Contains("HOME", "HOME") by {
      assert OccursAt("HOME", "HOME", 0);
    }
    assert !Contains("HOME", "NO BET") by {
      assert forall j :: !OccursAt("HOME", "NO BET", j);
    }
  }

  /** Without a `prediction` section the shared parser names no winner. */
  lemma NoPredictionSection(s: string, betType: string)
    requires ResponseParser.Sections(s) == map["prediction_home" := ""]
    ensures ResponseParser.ParseAIResponse(s, betType).predictedWinner.None?
  {
    assert "prediction" != "prediction_home";
  }

  /** A heading at the very start, and no `#` after it: the body is the rest, trimmed. */
  lemma SectionAtStart(h: string, body: string)
    requires '#' !in body
    ensures LiteralSection(h + body, h) == Some(Trim(body))
  {
    var s := h + body;
    assert s[0..|h|] == h;
    LiteralSectionAt(s, h, 0);
    NoHeadingAfter(h, body);
    assert s[|h|..|s|] == body;
    BodyAfterEndsAt(s, |h|, |s|);
  }

  /** Text without `#` after a prefix holds no `###` past that prefix. */
  lemma NoHeadingAfter(h: string, body: string)
    requires '#' !in body
    ensures ResponseParser.NoHeadingIn(h + body, |h|, |h + body|)
  {
    HeadAbsent(body, "###");
    forall j | |h| <= j < |h + body| ensures !OccursAt(h + body, "###", j) {
      OccursInSuffix(h, body, "###", j - |h|);
    }
  }

  /** This parser finds `HOME` as the body of `### PREDICTION\nHOME\n`. */
  lemma HomeSection()
    ensures LiteralSection("### PREDICTION\nHOME\n", "### PREDICTION") == Some("HOME")
  {
    HomeLiterals();
    SectionAtStart("### PREDICTION", "\nHOME\n");
    TrimOneEach('\n', "HOME", '\n');
  }

  lemma HomeLiterals()
    ensures "### PREDICTION\nHOME\n" == "### PREDICTION" + "\nHOME\n"
    ensures "\nHOME\n" == ['\n'] + "HOME" + ['\n']
    ensures '#' !in "\nHOME\n"
  {
  }

  // ---------------------------------------------------------------- calculateEdgeScore

  /** `calculateEdgeScore`: the probability minus a fixed implied probability of 50; the odds are ignored. */
  function CalculateEdgeScore<O>(trueProbability: real, odds: O): (e: real)
    ensures e >= 2.0 <==> trueProbability >= 52.0
    ensures e > 0.0 <==> trueProbability > 50.0
  {
    trueProbability - 50.0
  }

  /** The placeholder edge does not depend on the odds at all. */
  lemma EdgeIgnoresOdds<O>(trueProbability: real, a: O, b: O)
    ensures CalculateEdgeScore(trueProbability, a) == CalculateEdgeScore(trueProbability, b)
  {
  }

  /**
   * The placeholder is not the edge-calculator's edge: at even money (plus
   * 100, implied probability 50) that edge is twice the placeholder.
   */
  lemma PlaceholderIsHalfEvenMoneyEdge<O>(trueProbability: real, odds: O)
    ensures EdgeCalculator.ImpliedProbability(100.0) == 50.0
    ensures EdgeCalculator.EdgeScore(trueProbability, 100.0) == 2.0 * CalculateEdgeScore(trueProbability, odds)
  {
  }

  // ---------------------------------------------------------------- validatePrediction

  const ConfidenceMessage: string := "NO BET - Confidence below 65% threshold"
  const EdgeMessage: string := "NO BET - Edge below 2% threshold"

  /** The two thresholds of the gate. */
  predicate Recommended(confidenceScore: nat, edgeScore: real) {
    confidenceScore >= 65 && edgeScore >= 2.0
  }

  /**
   * The record after the gate: each failed threshold clears the winner and
   * writes its message into the line, the edge check running second.
   */
  function Gate(p: Parsed, edgeScore: real): (g: Parsed)
    ensures Recommended(p.confidenceScore, edgeScore) ==> g == p
    ensures !Recommended(p.confidenceScore, edgeScore) ==> g.predictedWinner.None?
    ensures edgeScore < 2.0 ==> g.recommendedLine == EdgeMessage
    ensures edgeScore >= 2.0 && p.confidenceScore < 65 ==> g.recommendedLine == ConfidenceMessage
    ensures g.(predictedWinner := p.predictedWinner, recommendedLine := p.recommendedLine) == p
  {
    var afterConfidence :=
      if p.confidenceScore < 65 then p.(predictedWinner := None, recommendedLine := ConfidenceMessage) else p;
    if edgeScore < 2.0 then afterConfidence.(predictedWinner := None, recommendedLine := EdgeMessage)
    else afterConfidence
  }

  /** Passing a gated record through the gate again changes nothing. */
  lemma GateIdempotent(p: Parsed, edgeScore: real)
    ensures Gate(Gate(p, edgeScore), edgeScore) == Gate(p, edgeScore)
  {
  }

  /** The `parsed` object `validatePrediction` updates in place. */
  class PredictionRecord {
    var predictedWinner: Option<string>
    var confidenceScore: nat
    var trueProbability: real
    var recommendedLine: string
    var keyFactors: seq<string>
    var aiAnalysis: string
    var riskAssessment: string

    function Value(): Parsed
      reads this
    {
      Parsed(predictedWinner, confidenceScore, trueProbability, recommendedLine, keyFactors, aiAnalysis, riskAssessment)
    }

    constructor (p: Parsed)
      ensures Value() == p
    {
      predictedWinner := p.predictedWinner;
      confidenceScore := p.confidenceScore;
      trueProbability := p.trueProbability;
      recommendedLine := p.recommendedLine;
      keyFactors := p.keyFactors;
      aiAnalysis := p.aiAnalysis;
      riskAssessment := p.riskAssessment;
    }
  }

  /** What `validatePrediction` returns: a copy of the record and the `recommended` flag. */
  datatype Validated = Validated(prediction: Parsed, recommended: bool)

  /** `validatePrediction`: gates `parsed` in place and reports whether both thresholds passed. */
  method ValidatePrediction(parsed: PredictionRecord, edgeScore: real) returns (v: Validated)
    modifies parsed
    ensures parsed.Value() == Gate(old(parsed.Value()), edgeScore)
    ensures v.prediction == parsed.Value()
    ensures v.recommended <==> Recommended(old(parsed.confidenceScore), edgeScore)
  {
    var recommended := true;
    if parsed.confidenceScore < 65 {
      recommended := false;
      parsed.predictedWinner := None;
      parsed.recommendedLine := ConfidenceMessage;
    }
    if edgeScore < 2.0 {
      recommended := false;
      parsed.predictedWinner := None;
      parsed.recommendedLine := EdgeMessage;
    }
    v := Validated(parsed.Value(), recommended);
  }

  // ---------------------------------------------------------------- buildPrompt

  /**
   * A key the unescaped `new RegExp('{' + key + '}', 'g')` reads literally:
   * letters, digits and underscores, not starting with a digit (a leading
   * digit would make the braces a repetition count).
   */
  predicate PlainKey(key: string) {
    |key| > 0 && !IsDigit(key[0])
    && forall i :: 0 <= i < |key| ==> IsDigit(key[i]) || key[i] == '_' || ('a' <= key[i] <= 'z') || ('A' <= key[i] <= 'Z')
  }

  /**
   * `buildPrompt`: instructions, a blank line and the template, then for each
   * context entry in order every `{key}` replaced by `String(value)`.
   */
  method BuildPrompt(systemInstructions: string, promptTemplate: string, context: seq<(string, string)>)
    returns (fullPrompt: string)
    requires forall k :: 0 <= k < |context| ==> PlainKey(context[k].0) && '$' !in context[k].1
    ensures fullPrompt == PromptBuilder.SubstituteAll(systemInstructions + "\n\n" + promptTemplate, context)
    ensures '{' !in systemInstructions ==>
              fullPrompt == systemInstructions + "\n\n" + PromptBuilder.SubstituteAll(promptTemplate, context)
  {
    fullPrompt := systemInstructions + "\n\n";
    fullPrompt := fullPrompt + promptTemplate;
    ghost var start := fullPrompt;
    var i := 0;
    while i < |context|
      invariant 0 <= i <= |context|
      invariant fullPrompt == PromptBuilder.SubstituteAll(start, context[..i])
    {
      var key := context[i].0;
      var placeholder := "{" + key + "}";
      fullPrompt := ReplaceAll(fullPrompt, placeholder, context[i].1);
      i := i + 1;
      assert context[..i][..i - 1] == context[..i - 1];
    }
    assert context[..|context|] == context;
    if '{' !in systemInstructions {
      assert '{' !in systemInstructions + "\n\n";
      PromptBuilder.SubstituteSkipsPrefix(systemInstructions + "\n\n", promptTemplate, context);
    }
  }

  /**
   * For primitive values and no insights, both `buildPrompt`s produce the
   * same text: the agent's is the prompt builder's with escaping that plain
   * keys never need.
   */
  lemma AgentPromptIsBuilderPrompt(systemInstructions: string, promptTemplate: string, context: seq<(string, string)>)
    ensures PromptBuilder.SubstituteAll(systemInstructions + "\n\n" + promptTemplate, context)
         == PromptBuilder.SubstituteAll(PromptBuilder.Head(systemInstructions, None) + promptTemplate,
                                        PromptBuilder.JsonPairs(Primitives(context)))
  {
    assert PromptBuilder.JsonPairs(Primitives(context)) == context;
  }

  /** The context entries as primitive prompt-builder values. */
  function Primitives(context: seq<(string, string)>): (c: seq<(string, PromptBuilder.Value)>)
    ensures |c| == |context|
    ensures forall k :: 0 <= k < |context| ==> c[k] == (context[k].0, PromptBuilder.Prim(context[k].1))
  {
    seq(|context|, k requires 0 <= k < |context| => (context[k].0, PromptBuilder.Prim(context[k].1)))
  }

  // ---------------------------------------------------------------- templates

  /** `getActivePrompt`'s system instructions: the prompt builder's default ones. */
  const AgentInstructions: string :=
    "You are an elite sports betting analyst. Only recommend bets with >65% confidence and positive edge (>2% expected value)."

  /** The default template after its first line, up to the `{odds}` of the recommended-bet format. */
  const AgentTemplateMiddle: string :=
      " betting opportunities.\n" +
      "\n" +
      "## Game Details\n" +
      "{game_details}\n" +
      "\n" +
      "## Current Betting Lines\n" +
      "{betting_lines}\n" +
      "\n" +
      "## Team Statistics\n" +
      "{team_stats}\n" +
      "\n" +
      "## Your Task\n" +
      "Provide your analysis in this EXACT format:\n" +
      "\n" +
      "### PREDICTION\n" +
      "[State: \"HOME\", \"AWAY\", or \"NO BET\"]\n" +
      "\n" +
      "### CONFIDENCE LEVEL\n" +
      "[Score 0-100. Only recommend if >65]\n" +
      "\n" +
      "### TRUE PROBABILITY ESTIMATE\n" +
      "[Your calculated probability: XX.X%]\n" +
      "\n" +
      "### RECOMMENDED BET\n" +
      "[Format: \"Team Name {betType} at "

  /** The rest of the default template after `{odds}`. */
  const AgentTemplateEnd: string :=
      "\" or \"NO BET\"]\n" +
      "\n" +
      "### KEY FACTORS\n" +
      "[List 3-5 specific factors with evidence]\n" +
      "\n" +
      "### DETAILED ANALYSIS\n" +
      "[2-3 paragraphs explaining your reasoning]\n" +
      "\n" +
      "### RISK ASSESSMENT\n" +
      "[One sentence stating the primary risk]\n" +
      "\n" +
      "IMPORTANT: If confidence is <65% or edge is <2%, recommend \"NO BET\""

  /**
   * `getDefaultPromptTemplate`: the sport upper-cased and the bet type in the
   * first line; `.trim()` removes only the leading line feed and the closing
   * indentation. The recommended-bet line carries an `{odds}` placeholder,
   * which `odds` in the context fills.
   */
  function GetDefaultPromptTemplate(sport: string, betType: string): (t: string)
    ensures t == PromptBuilder.DefaultTemplateStart(sport, betType) + AgentTemplateMiddle + "{odds}" + AgentTemplateEnd
  {
    PromptBuilder.DefaultTemplateStart(sport, betType) + AgentTemplateMiddle + "{odds}" + AgentTemplateEnd
  }

  /** The default template holds the `{odds}` placeholder, so the `odds` context entry is written into it. */
  lemma DefaultTemplateHasOdds(sport: string, betType: string)
    ensures Contains(GetDefaultPromptTemplate(sport, betType), PromptBuilder.Placeholder("odds"))
  {
    var p := PromptBuilder.Placeholder("odds");
    assert p == "{odds}";
    var a := PromptBuilder.DefaultTemplateStart(sport, betType) + AgentTemplateMiddle;
    OccursInMiddle(a, p, AgentTemplateEnd);
  }

  /** `getActivePrompt`: the default instructions and template for any sport and bet type. */
  function GetActivePrompt(sport: string, betType: string): (p: PromptBuilder.PromptTemplate)
    ensures p.sportType == sport && p.betType == betType
    ensures p.systemInstructions == PromptBuilder.DefaultInstructions
    ensures p.promptTemplate == GetDefaultPromptTemplate(sport, betType)
  {
    PromptBuilder.PromptTemplate(sport, betType, AgentInstructions, GetDefaultPromptTemplate(sport, betType))
  }
}
