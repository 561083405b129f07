/**
 * Prompt assembly for the analyst model: the system instructions, optional
 * learning insights, and a template whose `{key}` placeholders are filled
 * from a context record.
 */
module PromptBuilder {
  import opened Wrappers
  import opened JsText

  /** A context value: a primitive renders with `String(value)`, an object also has its `JSON.stringify(value, null, 2)` text. */
  datatype Value = Prim(str: string) | Obj(str: string, json: string)

  /** `typeof value === 'object' ? JSON.stringify(value, null, 2) : String(value)`. */
  function Rendered(v: Value): (text: string)
    ensures v.Prim? ==> text == v.str
    ensures v.Obj? ==> text == v.json
  {
    match v
    case Prim(s) => s
    case Obj(_, j) => j
  }

  /** A prompt record: sport, bet type, system instructions and the template text. */
  datatype PromptTemplate = PromptTemplate(sportType: string, betType: string, systemInstructions: string, promptTemplate: string)

  /** `{${key}}`. */
  function Placeholder(key: string): (p: string)
    ensures |p| == |key| + 2 && p[0] == '{' && p[|p| - 1] == '}' && p[1..|p| - 1] == key
  {
    "{" + key + "}"
  }

  /**
   * The text after replacing, pair by pair and in order, every occurrence of
   * each pair's placeholder with its text; the placeholder read literally.
   */
  function SubstituteAll(text: string, pairs: seq<(string, string)>): (r: string)
    ensures '{' !in text ==> r == text
    decreases |pairs|
  {
    if pairs == [] then text
    else
      var last := pairs[|pairs| - 1];
      var inner := SubstituteAll(text, pairs[..|pairs| - 1]);
      var p := Placeholder(last.0);
      if '{' in text then ReplaceAll(inner, p, last.1)
      else
        HeadAbsent(inner, p);
        ReplaceAllAbsent(inner, p, last.1);
        ReplaceAll(inner, p, last.1)
  }

  /** The `(key, valueStr)` pairs the loop over `Object.entries(context)` substitutes. */
  function JsonPairs(context: seq<(string, Value)>): (pairs: seq<(string, string)>)
    ensures |pairs| == |context|
    ensures forall k :: 0 <= k < |context| ==> pairs[k] == (context[k].0, Rendered(context[k].1))
  {
    seq(|context|, k requires 0 <= k < |context| => (context[k].0, Rendered(context[k].1)))
  }

  /** The instructions part: `system_instructions + '\n\n'`, with the first `{learning_insights}` replaced when insights are given. */
  function Head(instructions: string, learningInsights: Option<string>): (head: string)
    ensures learningInsights.None? || learningInsights.value == "" ==> head == instructions + "\n\n"
    ensures '{' !in instructions ==> head == instructions + "\n\n"
  {
    var prompt := instructions + "\n\n";
    if learningInsights.Some? && learningInsights.value != "" then
      if '{' in instructions then ReplaceFirst(prompt, "{learning_insights}", learningInsights.value)
      else
        NoInsightsPlaceholder(prompt);
        ReplaceFirst(prompt, "{learning_insights}", learningInsights.value)
    else prompt
  }

  /** `buildPrompt`. */
  method BuildPrompt(promptTemplate: PromptTemplate, context: seq<(string, Value)>, learningInsights: Option<string>)
    returns (prompt: string)
    requires learningInsights.Some? ==> '$' !in learningInsights.value
    requires forall k :: 0 <= k < |context| ==> '$' !in Rendered(context[k].1)
    ensures prompt == SubstituteAll(Head(promptTemplate.systemInstructions, learningInsights) + promptTemplate.promptTemplate,
                                    JsonPairs(context))
    ensures '{' !in Head(promptTemplate.systemInstructions, learningInsights) ==>
              prompt == Head(promptTemplate.systemInstructions, learningInsights)
                        + SubstituteAll(promptTemplate.promptTemplate, JsonPairs(context))
  {
    prompt := promptTemplate.systemInstructions + "\n\n";
    if learningInsights.Some? && learningInsights.value != "" {
      prompt := ReplaceFirst(prompt, "{learning_insights}", learningInsights.value);
    }
    prompt := prompt + promptTemplate.promptTemplate;
    ghost var start := prompt;
    ghost var pairs := JsonPairs(context);
    var i := 0;
    while i < |context|
      invariant 0 <= i <= |context|
      invariant prompt == SubstituteAll(start, pairs[..i])
    {
      var key := context[i].0;
      var valueStr := Rendered(context[i].1);
      prompt := ReplaceAll(prompt, Placeholder(key), valueStr);
      i := i + 1;
      assert pairs[..i][..i - 1] == pairs[..i - 1];
    }
    assert pairs[..|context|] == pairs;
    if '{' !in Head(promptTemplate.systemInstructions, learningInsights) {
      SubstituteSkipsPrefix(Head(promptTemplate.systemInstructions, learningInsights), promptTemplate.promptTemplate, pairs);
    }
  }

  // ---------------------------------------------------------------- substitution properties

  /** Text in front without an opening brace is never touched: every placeholder starts with one. */
  lemma {:induction false} SubstituteSkipsPrefix(a: string, b: string, pairs: seq<(string, string)>)
    requires '{' !in a
    ensures SubstituteAll(a + b, pairs) == a + SubstituteAll(b, pairs)
    decreases |pairs|
  {
    if pairs != [] {
      var init := pairs[..|pairs| - 1];
      var last := pairs[|pairs| - 1];
      SubstituteSkipsPrefix(a, b, init);
      ReplaceAllSkipsPrefix(a, SubstituteAll(b, init), Placeholder(last.0), last.1);
    }
  }

  /** A text holding no placeholder of any key comes back unchanged; in particular an empty context changes nothing. */
  lemma {:induction false} SubstituteAbsent(text: string, pairs: seq<(string, string)>)
    requires forall k, i :: 0 <= k < |pairs| ==> !OccursAt(text, Placeholder(pairs[k].0), i)
    ensures SubstituteAll(text, pairs) == text
    decreases |pairs|
  {
    if pairs != [] {
      var init := pairs[..|pairs| - 1];
      SubstituteAbsent(text, init);
      ReplaceAllAbsent(text, Placeholder(pairs[|pairs| - 1].0), pairs[|pairs| - 1].1);
    }
  }

  /**
   * One key whose name holds no opening brace: a text made of placeholder-free
   * pieces joined by its placeholder has every occurrence replaced by the value.
   */
  lemma SubstituteOne(parts: seq<string>, key: string, value: string)
    requires '{' !in key && |parts| >= 1
    requires forall k, i :: 0 <= k < |parts| ==> !OccursAt(parts[k], Placeholder(key), i)
    ensures SubstituteAll(Join(parts, Placeholder(key)), [(key, value)]) == Join(parts, value)
  {
    var p := Placeholder(key);
    assert p[1..] == key + "}";
    assert UniqueHead(p);
    ReplaceAllJoin(parts, p, value);
    assert [(key, value)][..0] == [];
  }

  /** With insights, only the first `{learning_insights}` of the instructions is replaced, and the blank line follows. */
  lemma HeadWithInsights(instructions: string, insights: string, i: nat)
    requires insights != ""
    requires OccursAt(instructions, "{learning_insights}", i)
    requires forall j :: 0 <= j < i ==> !OccursAt(instructions, "{learning_insights}", j)
    ensures Head(instructions, Some(insights)) == instructions[..i] + insights + instructions[i + 19..] + "\n\n"
  {
    var pat := "{learning_insights}";
    var s := instructions + "\n\n";
    assert |pat| == 19;
    assert s[i..i + 19] == instructions[i..i + 19];
    forall j | 0 <= j < i ensures !OccursAt(s, pat, j) {
      assert !OccursAt(instructions, pat, j);
      assert s[j..j + 19] == instructions[j..j + 19];
    }
    IndexOfFirst(s, pat, i);
    assert s[..i] == instructions[..i];
    assert s[i + 19..] == instructions[i + 19..] + "\n\n";
  }

  /** Text without an opening brace holds no `{learning_insights}`, so the insertion leaves it alone. */
  lemma NoInsightsPlaceholder(s: string)
    requires '{' !in s
    ensures !Contains(s, "{learning_insights}")
  {
    var pat := "{learning_insights}";
    assert pat[0] == '{';
    HeadAbsent(s, pat);
  }

  // ---------------------------------------------------------------- templates

  const NflMoneylineInstructions: string :=
    "You are an elite NFL betting analyst. Only recommend bets with >65% confidence and positive edge (>2% expected value)."

  const NflMoneylineTemplate: string :=
      "Analyze this NFL game for moneyline betting opportunities.\n" +
      "\n" +
      "## Game Details\n" +
      "Home Team: {home_team}\n" +
      "Away Team: {away_team}\n" +
      "Game Time: {commence_time}\n" +
      "\n" +
      "## Current Betting Lines\n" +
      "{betting_lines}\n" +
      "\n" +
      "## Your Task\n" +
      "Provide your analysis in this EXACT format:\n" +
      "\n" +
      "### PREDICTION\n" +
      "[State: \"HOME\", \"AWAY\", or \"NO BET\"]\n" +
      "\n" +
      "### CONFIDENCE LEVEL\n" +
      "[Score 0-100. Only recommend if >65]\n" +
      "\n" +
      "### TRUE PROBABILITY ESTIMATE\n" +
      "[Your calculated probability: XX.X%]\n" +
      "\n" +
      "### EDGE CALCULATION\n" +
      "Show your math for expected value calculation\n" +
      "\n" +
      "### RECOMMENDED BET\n" +
      "[Format: \"Team Name Moneyline at odds\" or \"NO BET\"]\n" +
      "\n" +
      "### KEY FACTORS\n" +
      "- Factor 1 with specific evidence\n" +
      "- Factor 2 with numbers/stats\n" +
      "- Factor 3 with context\n" +
      "\n" +
      "### DETAILED ANALYSIS\n" +
      "[2-3 paragraphs explaining your reasoning]\n" +
      "\n" +
      "### RISK ASSESSMENT\n" +
      "[One sentence stating the primary risk]\n" +
      "\n" +
      "IMPORTANT: If confidence is <65% or edge is <2%, recommend \"NO BET\""

  const NbaSpreadInstructions: string :=
    "You are an elite NBA betting analyst. Only recommend bets with >65% confidence and positive edge (>2% expected value)."

  const NbaSpreadTemplate: string :=
      "Analyze this NBA game for spread betting opportunities.\n" +
      "\n" +
      "## Game Details\n" +
      "Home Team: {home_team}\n" +
      "Away Team: {away_team}\n" +
      "Game Time: {commence_time}\n" +
      "Spread: {spread}\n" +
      "\n" +
      "## Current Betting Lines\n" +
      "{betting_lines}\n" +
      "\n" +
      "## Your Task\n" +
      "Provide your analysis in this EXACT format:\n" +
      "\n" +
      "### PREDICTION\n" +
      "[State which team will cover: \"HOME\", \"AWAY\", or \"NO BET\"]\n" +
      "\n" +
      "### CONFIDENCE LEVEL\n" +
      "[Score 0-100. Only recommend if >65]\n" +
      "\n" +
      "### TRUE PROBABILITY ESTIMATE\n" +
      "[Your calculated probability: XX.X%]\n" +
      "\n" +
      "### EDGE CALCULATION\n" +
      "Show your math for expected value calculation\n" +
      "\n" +
      "### RECOMMENDED BET\n" +
      "[Format: \"Team Name +/- spread at odds\" or \"NO BET\"]\n" +
      "\n" +
      "### KEY FACTORS\n" +
      "- Factor 1 with specific evidence\n" +
      "- Factor 2 with numbers/stats\n" +
      "- Factor 3 with context\n" +
      "\n" +
      "### DETAILED ANALYSIS\n" +
      "[2-3 paragraphs explaining your reasoning]\n" +
      "\n" +
      "### RISK ASSESSMENT\n" +
      "[One sentence stating the primary risk]\n" +
      "\n" +
      "IMPORTANT: If confidence is <65% or edge is <2%, recommend \"NO BET\""

  /** `NFL_MONEYLINE_PROMPT`. */
  const NflMoneylinePrompt: PromptTemplate :=
    PromptTemplate("nfl", "moneyline", NflMoneylineInstructions, NflMoneylineTemplate)

  /** `NBA_SPREAD_PROMPT`. */
  const NbaSpreadPrompt: PromptTemplate :=
    PromptTemplate("nba", "spread", NbaSpreadInstructions, NbaSpreadTemplate)

  const DefaultInstructions: string :=
    "You are an elite sports betting analyst. Only recommend bets with >65% confidence and positive edge (>2% expected value)."

  /**
   * The default template after `.trim()` (which removes only its leading line
   * feed and closing indentation) is `DefaultTemplateStart` with the sport in
   * upper case and the bet type filled in, then `DefaultTemplateRest`.
   */
  function DefaultTemplateStart(sport: string, betType: string): string {
    "Analyze this " + ToUpper(sport) + " game for " + betType
  }

  const DefaultTemplateRest: string :=
      " betting opportunities.\n" +
      "\n" +
      "## Game Details\n" +
      "{game_details}\n" +
      "\n" +
      "## Current Betting Lines\n" +
      "{betting_lines}\n" +
      "\n" +
      "Provide analysis with >65% confidence and >2% edge, or recommend \"NO BET\"."

  /** `getPromptTemplate`. */
  function GetPromptTemplate(sport: string, betType: string): (t: PromptTemplate)
    ensures sport == "nfl" && betType == "moneyline" ==> t == NflMoneylinePrompt
    ensures sport == "nba" && betType == "spread" ==> t == NbaSpreadPrompt
    ensures !(sport == "nfl" && betType == "moneyline") && !(sport == "nba" && betType == "spread") ==>
              t.sportType == sport && t.betType == betType && t.systemInstructions == DefaultInstructions
              && t.promptTemplate == DefaultTemplateStart(sport, betType) + DefaultTemplateRest
  {
    if sport == "nfl" && betType == "moneyline" then NflMoneylinePrompt
    else if sport == "nba" && betType == "spread" then NbaSpreadPrompt
    else PromptTemplate(sport, betType, DefaultInstructions, DefaultTemplateStart(sport, betType) + DefaultTemplateRest)
  }
}
