# Edge Up Sim — a verified model of the prediction pipeline and the quota accounting

Edge Up Sim is a sports-betting analysis service. A language model analyses a game. The service parses its answer, gates it on confidence and edge, stores it, later grades it against the final score, and learns from the graded history. Users spend a daily simulation allowance, and unused allowance rolls over inside a cap.

This project models the logic of that service in Dafny and proves properties about the model:

- **Quota** (`quota.dfy`): the rollover rule, the available count and a single deduction.
- **ResetSimulations** (`reset_simulations.dfy`): the hourly reset job. It works over an in-memory profile table, one row at a time. It counts daily and monthly resets and collects per-user errors.
- **CronAuth** (`cron_auth.dfy`): the bearer-secret check shared by both cron routes.
- **EdgeCalculator** (`edge_calculator.dfy`): odds arithmetic on exact rationals. It covers American/decimal odds, implied probability, edge, expected value, ROI, vig, vig removal, fair odds and the best-quote scan.
- **OddsClient** (`odds_client.dfy`): the two bookmaker aggregations, the rounded mean and the best price per outcome key. It also has the client's copies of the odds helpers.
- **ResponseParser** (`response_parser.dfy`): the shared answer parser. The section regular expression is modelled literally, including its backtracking over the `[A-Z\s]+` header class. The module also holds the winner, number, factor and edge-score readers.
- **ClaudeAgent** (`claude_agent.dfy`): the agent's own pieces:
  - its lazy section matcher and its away-by-default winner;
  - the placeholder edge score;
  - the confidence/edge gate, which updates the parsed record in place;
  - its unescaped placeholder substitution and its default template.
- **PromptBuilder** (`prompt_builder.dfy`): the escaped global placeholder substitution, the first-occurrence insight insertion and the template selection.
- **LearningEngine** (`learning_engine.dfy`): grading a prediction, the training weight, the seven confidence buckets, factor ranking, the insights text and the fewer-than-50 guard.
- **UpdateScores** (`update_scores.dfy`): the score-update job. It determines winners, writes status and scores, resolves the unresolved predictions of completed non-tied games, and logs failures per game and per sport. Its tables live in a `ScoreStore` class whose methods update them in place.
- **Format** (`format.dfy`): the display helpers: odds sign, edge and confidence classes, truncation, team-name shortening, the name tables, the record text and the zero win rate.
- **StateValidator** (`state_validator.dfy`): case-insensitive membership in the 24 legal state codes.
- **JsText** and **Wrappers** are support modules. JsText holds the JavaScript string operations the code relies on: `trim`, `split`, `join`, `indexOf`/`includes`, global and first-occurrence `replace`, ASCII upper/lower case, `parseInt`, `String(n)` and one-decimal `toFixed`. Wrappers holds `Option`.

Inputs the code reads from the world are parameters of the model:

- the clock and time-zone library results (local midnight, calendar month, age in days);
- the database rows;
- the odds API's score feed (`getScores` is a function from sport to a fetch result);
- the cron secret and the request header.

Where the code and its design description disagree, the model follows the code:

- `deductSimulation` fails when `max(0, limit - used) + rollover <= 0`. The description's `used >= limit + rollover` differs from this once `used` exceeds `limit`.
- Unlike the library, the reset job computes unused allowance without clamping at zero, so an over-used day shrinks the rollover pool.
- The monthly reset compares month numbers only, so the same month one year later does not reset.
- The two answer parsers disagree: on `### PREDICTION\nHOME\n`, for instance, one reads the home side and the other finds no prediction section at all.

## Model

| member | source | states |
|---|---|---|
| Quota.UnusedToday | src/lib/utils/timezone.ts:67 | unused allowance is never negative, is zero exactly when the day's allowance is used up, and is `limit - used` otherwise |
| Quota.CalculateRollover | src/lib/utils/timezone.ts:62-72 | the new rollover never exceeds 3 × the daily limit; when the allowance is used up it is `min(rollover, 3 × limit)`; a rollover within the cap grows by at most the unused allowance and never shrinks |
| Quota.AvailableSimulations | src/lib/utils/timezone.ts:77-84 | available = `max(0, limit - used) + rollover` |
| Quota.DeductSimulation | src/lib/utils/timezone.ts:90-117 | fails exactly when nothing is available, and then changes nothing; on success it spends the daily allowance first and the rollover only when the allowance is used up |
| Quota.DeductionConsumesOne | src/lib/utils/timezone.ts:90-117 | each successful deduction lowers the available count by exactly one; a failed one leaves it unchanged |
| Quota.DeductTimesCount | src/lib/utils/timezone.ts:90-117 | n deductions in a row succeed `min(n, max(0, available))` times, and the available count drops by the successes |
| Quota.TwoFromThePool | src/lib/utils/timezone.ts:90-117 | from limit 3, used 3, rollover 2, two deductions succeed and the third fails, leaving rollover 0 |
| Quota.RolloverCapExample | src/lib/utils/timezone.ts:67-71 | limit 3, used 1, rollover 8 gives rollover 9, the cap |
| CronAuth.ExpectedHeader | src/app/api/cron/reset-simulations/route.ts:9-12 | the expected header is `Bearer ` followed by the secret, or by `undefined` when no secret is set |
| CronAuth.Authorized | src/app/api/cron/update-scores/route.ts:11-14 | a request passes exactly when its header equals the expected header; a missing header never passes |
| CronAuth.UnsetSecretAcceptsUndefined | src/app/api/cron/reset-simulations/route.ts:9-12 | with no secret configured, the header `Bearer undefined` passes |
| ResetSimulations.TimeZone | src/app/api/cron/reset-simulations/route.ts:36 | the user's reset time zone, New York when it is unset or empty |
| ResetSimulations.DailyRollover | src/app/api/cron/reset-simulations/route.ts:49-53 | the reset job's rollover never exceeds 3 × the limit, equals the old rollover plus `limit - count` or the cap, and shrinks a rollover within the cap when the count is over the limit |
| ResetSimulations.ResetUser | src/app/api/cron/reset-simulations/route.ts:47-79 | the daily reset fires exactly when the last reset precedes local midnight, and then zeroes the count and stamps midnight; the monthly reset fires exactly when the month numbers differ, and zeroes the monthly count and the rollover; identity, limit and status are kept; with neither reset the profile is unchanged |
| ResetSimulations.Effect | src/app/api/cron/reset-simulations/route.ts:33-89 | only active or trialing profiles are handled; a time-zone failure yields the message `User <id>: <error>`; otherwise the row is reset |
| ResetSimulations.After | src/app/api/cron/reset-simulations/route.ts:33-89 | a row that is not visited is unchanged; every row keeps its id and its limit |
| ResetSimulations.ResetSimulations | src/app/api/cron/reset-simulations/route.ts:9-89 | a wrong bearer header gives Unauthorized and no changes; no visited profile gives "No active users" and no changes; otherwise the table and counters are exactly those of the row-by-row run |
| ResetSimulations.NoVisitedCount | src/app/api/cron/reset-simulations/route.ts:24-31 | when no profile is active or trialing, none is visited |
| ResetSimulations.VisitedCountPositive | src/app/api/cron/reset-simulations/route.ts:24-31 | one active or trialing profile makes the visited count positive |
| ResetSimulations.Run | src/app/api/cron/reset-simulations/route.ts:33-89 | the run keeps the table's length, and its row i is the i-th profile after its own reset, so rows do not affect each other; daily resets plus errors, and monthly resets plus errors, never exceed the number of visited profiles |
| ResetSimulations.ErrorsAreFailures | src/app/api/cron/reset-simulations/route.ts:85-88 | every recorded error is the failure message of some profile |
| ResetSimulations.DailyResetCapsRollover | src/app/api/cron/reset-simulations/route.ts:50-53 | after a daily reset without a monthly one, rollover is at most 3 × the limit |
| ResetSimulations.DailyRolloverMatchesLibrary | src/app/api/cron/reset-simulations/route.ts:49-53 | while the count does not exceed the limit, the job's rollover equals the library's `calculateRollover` |
| ResetSimulations.OverLimitShrinksPool | src/app/api/cron/reset-simulations/route.ts:49 | limit 3 and count 5 turn rollover 0 into -2 in the job, where the library gives 0 |
| ResetSimulations.SameMonthNextYear | src/app/api/cron/reset-simulations/route.ts:69-72 | a last reset in the same month of the previous year triggers no monthly reset |
| ResetSimulations.MonthlyOverridesDaily | src/app/api/cron/reset-simulations/route.ts:72-79 | a monthly reset leaves rollover 0, whatever the daily reset wrote |
| EdgeCalculator.Round | src/lib/ai/edge-calculator.ts:31-33 | `Math.round` gives the integer within half of x, halves going up |
| EdgeCalculator.RoundInteger | src/lib/ai/edge-calculator.ts:31-33 | rounding an integer gives it back |
| EdgeCalculator.AmericanToDecimal | src/lib/ai/edge-calculator.ts:18-24 | decimal odds exceed 1; positive odds are `(d - 1) × 100`, negative ones satisfy `(d - 1) × |o| = 100`; d ≥ 2 exactly for odds ≥ 100 or from -100 to 0 |
| EdgeCalculator.DecimalToAmerican | src/lib/ai/edge-calculator.ts:29-35 | decimal odds of 2 or more give odds ≥ 100; between 1 and 2 they give odds ≤ -100 |
| EdgeCalculator.ImpliedProbability | src/lib/ai/edge-calculator.ts:40-46 | strictly between 0 and 100 for nonzero odds |
| EdgeCalculator.ImpliedIsReciprocal | src/lib/ai/edge-calculator.ts:18-46 | implied probability is 100 over the decimal odds |
| EdgeCalculator.ImpliedExamples | src/lib/ai/edge-calculator.ts:40-46 | +150 is 40 percent and -150 is 60 percent |
| EdgeCalculator.RoundTrip | src/lib/ai/edge-calculator.ts:18-35 | converting to decimal and back returns odds ≥ 100 and < -100 unchanged; -100 comes back as +100 |
| EdgeCalculator.EdgeScore | src/lib/ai/edge-calculator.ts:5-13 | the edge is the true probability times the decimal odds minus 100 |
| EdgeCalculator.EdgePositiveIffValue | src/lib/ai/edge-calculator.ts:5-46 | the edge is positive exactly when the true probability exceeds the implied one, and zero exactly at equality |
| EdgeCalculator.EdgeExample | src/lib/ai/edge-calculator.ts:5-13 | 60 percent at +120 is an edge of 32 |
| EdgeCalculator.ExpectedValue | src/lib/ai/edge-calculator.ts:52-64 | the expected value is the edge scaled to the stake |
| EdgeCalculator.ExpectedValueIsEdge | src/lib/ai/edge-calculator.ts:52-64 | on a stake of 100 the expected value equals the edge |
| EdgeCalculator.ROI | src/lib/ai/edge-calculator.ts:69-74 | ROI times the stake is 100 times the expected value |
| EdgeCalculator.ROIIsEdge | src/lib/ai/edge-calculator.ts:52-74 | the ROI of an expected value equals the edge for any stake, and on a stake of 100 it equals the expected value |
| EdgeCalculator.BestIndex | src/lib/ai/edge-calculator.ts:79-102 | the chosen quote has the highest quoted odds, strictly above every earlier one (ties keep the first); there is none exactly when no quote has odds |
| EdgeCalculator.FindBestOdds | src/lib/ai/edge-calculator.ts:79-102 | no result exactly for an empty list; otherwise the best quote's bookmaker name, odds and implied probability, or an empty entry when no quote has odds |
| EdgeCalculator.FairOdds | src/lib/ai/edge-calculator.ts:107-110 | probabilities up to 50 give odds ≥ 100, above 50 they give odds ≤ -100 |
| EdgeCalculator.FairOddsOfImplied | src/lib/ai/edge-calculator.ts:40-110 | the fair odds of a price's implied probability are that price, for odds ≥ 100 or < -100 |
| EdgeCalculator.Vig | src/lib/ai/edge-calculator.ts:115-122 | the vig plus 100 is the sum of the two implied probabilities |
| EdgeCalculator.RemoveVig | src/lib/ai/edge-calculator.ts:127-139 | the two fair probabilities sum to 100, each lies strictly between 0 and 100, and each is its side's share of the implied total |
| OddsClient.OutcomeKey | src/lib/odds-api/client.ts:139-141 | the key is the outcome name, or `name_point` when a point is given |
| OddsClient.FindMarketFrom | src/lib/odds-api/client.ts:136 | the first market with the requested key, or none exactly when no market has it |
| OddsClient.OutcomeObservationsAre | src/lib/odds-api/client.ts:138-147 | each outcome of a market yields one observation of key, price and bookmaker, in order |
| OddsClient.BookmakerObservationsAre | src/lib/odds-api/client.ts:136-137 | a bookmaker without the market contributes nothing; otherwise the outcomes of its first such market |
| OddsClient.PricesOfPresent | src/lib/odds-api/client.ts:143-146 | a key has prices exactly when some observation carries it |
| OddsClient.GroupedIsPrices | src/lib/odds-api/client.ts:133-149 | the grouping maps each observed key to exactly its prices in observation order |
| OddsClient.GroupBookmaker | src/lib/odds-api/client.ts:135-149 | one bookmaker's pass extends the grouping by its observations |
| OddsClient.AveragePrices | src/lib/odds-api/client.ts:152-156 | every key maps to the rounded mean of its prices |
| OddsClient.CalculateAverageOdds | src/lib/odds-api/client.ts:132-159 | the averages are the rounded means of the grouped prices of every bookmaker's first matching market |
| OddsClient.SumBounds | src/lib/odds-api/client.ts:155 | a sum lies between count × minimum and count × maximum |
| OddsClient.AverageInRange | src/lib/odds-api/client.ts:155 | every average lies between that key's lowest and highest price |
| OddsClient.OfferTakes | src/lib/odds-api/client.ts:176-181 | a new key or a strictly higher price replaces the entry with this price and bookmaker |
| OddsClient.OfferKeeps | src/lib/odds-api/client.ts:176 | an equal or lower price leaves the entry unchanged |
| OddsClient.OfferBookmaker | src/lib/odds-api/client.ts:167-184 | one bookmaker's pass offers its observations in order |
| OddsClient.GetBestOdds | src/lib/odds-api/client.ts:164-187 | the result is the best-quote fold over all bookmakers' first matching markets |
| OddsClient.BestIsFirstMaximum | src/lib/odds-api/client.ts:164-187 | the keys are exactly the observed ones; each maps to the highest price and to the bookmaker of its first occurrence |
| OddsClient.BestIsMaxOfGrouped | src/lib/odds-api/client.ts:132-187 | the best price is the maximum of the key's grouped prices, and never below its average |
| OddsClient.SameKeys | src/lib/odds-api/client.ts:132-187 | averages and best odds have the same key set |
| OddsClient.AmericanToDecimal | src/lib/odds-api/client.ts:218-224 | the client's conversion agrees with the edge calculator's on every nonzero input |
| OddsClient.DecimalToAmerican | src/lib/odds-api/client.ts:226-232 | the client's conversion agrees with the edge calculator's on every input other than 1 |
| OddsClient.ImpliedProbability | src/lib/odds-api/client.ts:234-240 | the client's implied probability agrees with the edge calculator's on every input |
| ResponseParser.HeaderRunEnd | src/lib/ai/response-parser.ts:23 | the greedy `[A-Z\s]+` run ends at the first character outside the class |
| ResponseParser.LastNewline | src/lib/ai/response-parser.ts:23 | the last line feed in a range, or none when the range holds none; backtracking ends the header there |
| ResponseParser.BodyEnd | src/lib/ai/response-parser.ts:23 | the lazy body stops at the first `###` after the header, or at the end of the text |
| ResponseParser.BodyEndAt | src/lib/ai/response-parser.ts:23 | that stop is the only `###` or end position with no `###` before it |
| ResponseParser.CollapseSpaces | src/lib/ai/response-parser.ts:27 | the result of collapsing whitespace runs to `_` holds no whitespace |
| ResponseParser.MatchAt | src/lib/ai/response-parser.ts:23 | a match at p starts at p and ends inside the text |
| ResponseParser.HeaderNewline | src/lib/ai/response-parser.ts:23 | the line feed closing the header lies after `### ` and follows only header characters |
| ResponseParser.NextMatch | src/lib/ai/response-parser.ts:26 | `exec` from an index returns a match at or after it |
| ResponseParser.NextMatchLeftmost | src/lib/ai/response-parser.ts:26 | and that match is the leftmost one |
| ResponseParser.Sections | src/lib/ai/response-parser.ts:19-33 | every entry of the section dictionary has a lower-case, underscore-joined name and a trimmed body |
| ResponseParser.ExtractSections | src/lib/ai/response-parser.ts:19-33 | the loop builds exactly the dictionary of all successive matches, later headings overwriting earlier ones |
| ResponseParser.CollapseLower | src/lib/ai/response-parser.ts:27 | lower-case letters and whitespace collapse to a section name |
| ResponseParser.NormalizeHeader | src/lib/ai/response-parser.ts:27 | every header normalises to a lower-case, underscore-joined name without spaces |
| ResponseParser.MatchShape | src/lib/ai/response-parser.ts:27-28 | every match yields such a name and a trimmed body |
| ResponseParser.SectionsShape | src/lib/ai/response-parser.ts:26-30 | from any well-shaped start, every further match keeps the dictionary well shaped |
| ResponseParser.NoMatchWithoutHeading | src/lib/ai/response-parser.ts:23-26 | with no `###` left in the text there is no further match |
| ResponseParser.OneSection | src/lib/ai/response-parser.ts:23-30 | `###`, a header, a line feed and a body without `#` give the one section `normalised header → trimmed body` |
| ResponseParser.FirstLineJoinsName | src/lib/ai/response-parser.ts:23-27 | an upper-case first body line is absorbed into the section name, joined by `_` |
| ResponseParser.PredictionHomeQuirk | src/lib/ai/response-parser.ts:23-30 | `### PREDICTION\nHOME\n` has the single empty section `prediction_home` |
| ResponseParser.Field | src/lib/ai/response-parser.ts:8-15 | a missing section reads as the empty text |
| ResponseParser.ParseWinner | src/lib/ai/response-parser.ts:35-42 | `NO BET` gives none, then `HOME`, `AWAY`, `OVER`, `UNDER` in this order; none when the text has none of them |
| ResponseParser.FirstDigitFrom | src/lib/ai/response-parser.ts:45 | the first digit at or after an index, or none exactly when there is none |
| ResponseParser.Decimal | src/lib/ai/response-parser.ts:50 | `\d+\.?\d*` matches exactly at a digit, stops before the next non-digit, and reads a number between the whole part and the whole part plus one |
| ResponseParser.Fraction | src/lib/ai/response-parser.ts:50 | the digits after the point read as a fraction in [0, 1) and stop before the next non-digit |
| ResponseParser.DecimalPoint | src/lib/ai/response-parser.ts:50 | digits, a point and digits read as the whole part plus the fraction digits over their power of ten, and the match ends after the last fraction digit |
| ResponseParser.ParseConfidence | src/lib/ai/response-parser.ts:44-47 | a text without digits reads as 0 |
| ResponseParser.ConfidenceReadsNumber | src/lib/ai/response-parser.ts:44-47 | the confidence of `String(n)` after digit-free text, and before a non-digit, is n |
| ResponseParser.ParseTrueProbability | src/lib/ai/response-parser.ts:49-52 | the probability is never negative, and 0 for a text without digits |
| ResponseParser.ProbabilityReadsWhole | src/lib/ai/response-parser.ts:49-52 | digits after digit-free text, followed by neither a digit nor a point, read as their value |
| ResponseParser.ProbabilityReadsDecimal | src/lib/ai/response-parser.ts:49-52 | `a.f` after digit-free text reads as the value of a plus the value of f over 10 to the length of f |
| ResponseParser.ProbabilityExample | src/lib/ai/response-parser.ts:49-52 | `about 12.5%` reads as 12.5 |
| ResponseParser.FactorsOf | src/lib/ai/response-parser.ts:55-59 | the filter-map-filter chain returns no more items than lines |
| ResponseParser.FactorsOfGood | src/lib/ai/response-parser.ts:55-59 | every item is non-empty, trimmed and on one line |
| ResponseParser.ParseFactors | src/lib/ai/response-parser.ts:54-60 | at most one item per line, none of them empty |
| ResponseParser.FactorsOfBullets | src/lib/ai/response-parser.ts:55-59 | the bullet lines `- x` give back exactly the items x, in order |
| ResponseParser.ParseFactorsBulletList | src/lib/ai/response-parser.ts:54-60 | parsing a bullet list joined with line feeds gives back its items |
| ResponseParser.EdgeFromNone | src/lib/ai/response-parser.ts:66-67 | the search finds nothing exactly when no position matches |
| ResponseParser.EdgeFromLeftmost | src/lib/ai/response-parser.ts:66-67 | the search returns the leftmost match |
| ResponseParser.ParseEdgeCalculation | src/lib/ai/response-parser.ts:65-69 | a text without an `Edge Score: N%` reads as 0 |
| ResponseParser.EdgeScoreReadsNumber | src/lib/ai/response-parser.ts:65-69 | `Edge Score: N%` reads back as N for every integer N, negative ones included |
| ResponseParser.ParseAIResponse | src/lib/ai/response-parser.ts:4-17 | the bet type is passed through, and the line, analysis and risk are their sections or `''`; the probability is never negative; no `prediction` section means no winner |
| ResponseParser.ValidateParsedPrediction | src/lib/ai/response-parser.ts:74-81 | valid exactly when the confidence is positive, the analysis is non-empty and there is a factor |
| ResponseParser.ValidatedSections | src/lib/ai/response-parser.ts:4-81 | a parsed answer validates exactly when its confidence section reads positive, its analysis section is non-empty and its factor section yields an item; a validated answer had all three sections |
| ResponseParser.ValidatesWellFormed | src/lib/ai/response-parser.ts:4-81 | an answer whose confidence section holds a positive number after digit-free text, whose analysis is non-empty and whose factor section is a bullet list validates, with that number and exactly those factors |
| ClaudeAgent.LiteralSection | src/lib/ai/claude-agent.ts:211-219 | a section is missing exactly when its heading does not occur; a found body is trimmed |
| ClaudeAgent.BodyAfter | src/lib/ai/claude-agent.ts:211-219 | the body is trimmed |
| ClaudeAgent.LiteralSectionAt | src/lib/ai/claude-agent.ts:211-217 | the first occurrence of the heading decides the body |
| ClaudeAgent.BodyAfterEndsAt | src/lib/ai/claude-agent.ts:211-217 | the body runs to the first following `###` or to the end |
| ClaudeAgent.SectionAtStart | src/lib/ai/claude-agent.ts:211-219 | a heading at the start followed by `#`-free text gives that text, trimmed |
| ClaudeAgent.Winner | src/lib/ai/claude-agent.ts:236 | none exactly when `NO BET` occurs; home exactly when `HOME` does and `NO BET` does not; away in every other case, empty text included |
| ClaudeAgent.ParseAIResponse | src/lib/ai/claude-agent.ts:209-244 | each field comes from the first occurrence of its heading; the line defaults to `NO BET`; the analysis and risk default to `''`; the probability is never negative; the factors are good items |
| ClaudeAgent.MissingSections | src/lib/ai/claude-agent.ts:219-242 | a missing section gives away, 0, 0, no factors, `NO BET`, `''` and `''` |
| ClaudeAgent.WinnerDefaultsToAway | src/lib/ai/claude-agent.ts:236 | without `NO BET` and `HOME` this parser says away, while the shared parser says away only when `AWAY` occurs |
| ClaudeAgent.WinnersAgreeOnNoBetAndHome | src/lib/ai/claude-agent.ts:236 | both parsers agree on `NO BET` and on home |
| ClaudeAgent.ParsersDisagreeOnHome | src/lib/ai/claude-agent.ts:211-236 | on `### PREDICTION\nHOME\n` this parser picks home and the shared parser picks no winner |
| ClaudeAgent.CalculateEdgeScore | src/lib/ai/claude-agent.ts:246-252 | the placeholder edge clears 2 exactly at probability 52 and is positive exactly above 50 |
| ClaudeAgent.EdgeIgnoresOdds | src/lib/ai/claude-agent.ts:246-252 | the odds do not affect the placeholder edge |
| ClaudeAgent.PlaceholderIsHalfEvenMoneyEdge | src/lib/ai/claude-agent.ts:246-252 | at even money the calculator's edge is twice the placeholder |
| ClaudeAgent.Gate | src/lib/ai/claude-agent.ts:254-273 | passing both thresholds changes nothing; failing one clears the winner; low edge writes the edge message, and that message wins over the confidence one when both fail; no other field changes |
| ClaudeAgent.GateIdempotent | src/lib/ai/claude-agent.ts:254-273 | gating twice is gating once |
| ClaudeAgent.PredictionRecord.constructor | src/lib/ai/claude-agent.ts:219-243 | the record holds the parsed fields |
| ClaudeAgent.ValidatePrediction | src/lib/ai/claude-agent.ts:254-273 | the record is gated in place, the copy returned is that record, and `recommended` holds exactly when confidence ≥ 65 and edge ≥ 2 |
| ClaudeAgent.BuildPrompt | src/lib/ai/claude-agent.ts:175-186 | instructions, a blank line and the template, with every `{key}` of each entry replaced in order; instructions without `{` are kept verbatim |
| ClaudeAgent.AgentPromptIsBuilderPrompt | src/lib/ai/claude-agent.ts:175-186 | for plain values the agent's prompt equals the prompt builder's without insights |
| ClaudeAgent.Primitives | src/lib/ai/claude-agent.ts:180-182 | each entry becomes the same key with its text as a primitive value |
| ClaudeAgent.GetDefaultPromptTemplate | src/lib/ai/claude-agent.ts:117-156 | the first line names the upper-cased sport and the bet type, followed by the fixed text |
| ClaudeAgent.DefaultTemplateHasOdds | src/lib/ai/claude-agent.ts:143 | the template holds the `{odds}` placeholder |
| ClaudeAgent.GetActivePrompt | src/lib/ai/claude-agent.ts:105-115 | any sport and bet type get the default instructions and the default template |
| PromptBuilder.Rendered | src/lib/ai/prompt-builder.ts:22 | a primitive renders as its string, an object as its JSON text |
| PromptBuilder.Placeholder | src/lib/ai/prompt-builder.ts:21 | the placeholder is the key in braces |
| PromptBuilder.JsonPairs | src/lib/ai/prompt-builder.ts:22 | each value is rendered as its JSON text when it is an object and as its string otherwise |
| PromptBuilder.BuildPrompt | src/lib/ai/prompt-builder.ts:4-27 | the prompt is the head plus the template with every entry's placeholders replaced; a head without `{` is kept verbatim |
| PromptBuilder.SubstituteAll | src/lib/ai/prompt-builder.ts:20-24 | a text without `{` is never changed by the substitution |
| PromptBuilder.SubstituteSkipsPrefix | src/lib/ai/prompt-builder.ts:20-24 | text without `{` before the template is never changed by substitution |
| PromptBuilder.SubstituteAbsent | src/lib/ai/prompt-builder.ts:20-26 | placeholders that do not occur change nothing, so an empty context leaves the text as is |
| PromptBuilder.SubstituteOne | src/lib/ai/prompt-builder.ts:23 | every occurrence of a placeholder is replaced |
| PromptBuilder.Head | src/lib/ai/prompt-builder.ts:9-14 | without insights, or with instructions holding no `{`, the head is the instructions and a blank line |
| PromptBuilder.HeadWithInsights | src/lib/ai/prompt-builder.ts:9-14 | with insights only the first `{learning_insights}` of the instructions is replaced |
| PromptBuilder.GetPromptTemplate | src/lib/ai/prompt-builder.ts:135-163 | nfl/moneyline and nba/spread get their own templates; any other pair gets the default, which echoes sport and bet type and upper-cases the sport |
| LearningEngine.EvaluatePrediction | src/lib/ai/learning-engine.ts:69-86 | a prediction is correct exactly when it is a moneyline bet naming the winner; spread, total and other types never are |
| LearningEngine.OnlyMoneylineCanWin | src/lib/ai/learning-engine.ts:69-86 | a non-moneyline bet or a missing pick is never correct |
| LearningEngine.ActualConfidence | src/lib/ai/learning-engine.ts:105 | the confidence when correct, its complement to 100 otherwise |
| LearningEngine.ActualConfidenceInRange | src/lib/ai/learning-engine.ts:105 | it stays within 0 to 100, and complementing twice is the identity |
| LearningEngine.TrainingWeight | src/lib/ai/learning-engine.ts:138-158 | the weight lies in [1, 3.24]; it exceeds 1 exactly when a factor applies; it is 3.24 exactly when all three do; a correct prediction stays at most 2.16 |
| LearningEngine.CalculateTrainingWeight | src/lib/ai/learning-engine.ts:138-158 | the three conditional multiplications compute the weight |
| LearningEngine.BucketOf | src/lib/ai/learning-engine.ts:222-239 | the cascade puts a confidence in one of seven buckets, between the bucket's bounds, the first and last open-ended |
| LearningEngine.BucketUnique | src/lib/ai/learning-engine.ts:222-239 | that bucket is the only one whose bounds fit |
| LearningEngine.Tallies | src/lib/ai/learning-engine.ts:211-239 | seven tallies, in each of which wins never exceed predictions |
| LearningEngine.EachRecordInOneBucket | src/lib/ai/learning-engine.ts:222-239 | the predictions counted over all buckets equal the records with a nonzero confidence |
| LearningEngine.Rate | src/lib/ai/learning-engine.ts:241-247 | an empty bucket rates 0; every rate lies in [0, 100] |
| LearningEngine.Percent | src/lib/ai/learning-engine.ts:241-247 | a rate in [0, 100] with rate × total = 100 × wins |
| LearningEngine.CalculateConfidenceBuckets | src/lib/ai/learning-engine.ts:211-250 | seven buckets with their bounds and the rate of their tally |
| LearningEngine.StatsWellFormed | src/lib/ai/learning-engine.ts:260-273 | every counted factor in the counting order has uses, and wins never exceed them |
| LearningEngine.Rated | src/lib/ai/learning-engine.ts:276-282 | one rate per factor, in first-use order, each within [0, 100] |
| LearningEngine.Frequent | src/lib/ai/learning-engine.ts:276-282 | exactly the factors used at least 10 times are kept |
| LearningEngine.Insert | src/lib/ai/learning-engine.ts:285 | insertion adds exactly the one entry |
| LearningEngine.InsertDescending | src/lib/ai/learning-engine.ts:285 | insertion keeps the order by rate non-increasing |
| LearningEngine.SortByRate | src/lib/ai/learning-engine.ts:285 | sorting is a permutation |
| LearningEngine.SortByRateSorts | src/lib/ai/learning-engine.ts:285 | sorting orders by non-increasing rate, keeps the length and is a permutation |
| LearningEngine.BelowBy5 | src/lib/ai/learning-engine.ts:289-294 | kept factors are more than 5 points below the average |
| LearningEngine.Take | src/lib/ai/learning-engine.ts:289-294 | `slice(0, n)` is a prefix of at most n entries |
| LearningEngine.CountFactors | src/lib/ai/learning-engine.ts:262-272 | one record's factors are counted onto the statistics in order |
| LearningEngine.CountFactor | src/lib/ai/learning-engine.ts:263-271 | one use is counted: a first use joins the order, and uses and wins go up |
| LearningEngine.AnalyzeFactorPerformance | src/lib/ai/learning-engine.ts:255-295 | top and overvalued lists taken from the sorted frequent factors |
| LearningEngine.TopIsBest | src/lib/ai/learning-engine.ts:289-291 | at most 5 top factors, a prefix of the ranking, none rated below a factor left out |
| LearningEngine.OvervaluedAreBelowAverage | src/lib/ai/learning-engine.ts:287-294 | at most 3 overvalued factors, each more than 5 points below the average rate |
| LearningEngine.SortedFactors | src/lib/ai/learning-engine.ts:260-285 | the ranked frequent factors are in non-increasing rate |
| LearningEngine.Analysis | src/lib/ai/learning-engine.ts:287-294 | the top list is the first five ranked factors, or all when fewer; the overvalued list has at most 3 entries, none without ranked factors |
| LearningEngine.SortedFactorsRange | src/lib/ai/learning-engine.ts:276-285 | every ranked factor was used at least 10 times and rates within [0, 100] |
| LearningEngine.AnalysisProperties | src/lib/ai/learning-engine.ts:255-295 | both lists together: sizes, order, frequency and range |
| LearningEngine.Calibrate | src/lib/ai/learning-engine.ts:308-318 | well calibrated exactly within 3 points of the midpoint; overconfident exactly 3 or more below; no line exactly 3 or more above |
| LearningEngine.AppendCalibration | src/lib/ai/learning-engine.ts:308-318 | the loop appends the calibration lines of the buckets in order |
| LearningEngine.AppendTop | src/lib/ai/learning-engine.ts:320-325 | the loop appends the numbered top-factor lines in order |
| LearningEngine.AppendOvervalued | src/lib/ai/learning-engine.ts:327-332 | the loop appends the overvalued-factor lines in order |
| LearningEngine.FormatLearningInsights | src/lib/ai/learning-engine.ts:300-335 | the text is the header, the calibration lines, then each factor section only when its list is non-empty |
| LearningEngine.CorrectPredictions | src/lib/ai/learning-engine.ts:181-186 | the correct records number at most all records |
| LearningEngine.InsightsFor | src/lib/ai/learning-engine.ts:163-206 | insufficient data exactly for no rows or fewer than 50, with the sample size |
| LearningEngine.GenerateLearningInsights | src/lib/ai/learning-engine.ts:163-206 | insufficient data exactly for no rows or fewer than 50, reporting the sample size; otherwise the insights text |
| UpdateScores.FindEntry | src/app/api/cron/update-scores/route.ts:48-49 | an entry for the team is found exactly when the list has one, and it is the first such entry |
| UpdateScores.WinnerOf | src/app/api/cron/update-scores/route.ts:55-59 | no winner exactly for a missing score or a tie; otherwise home or away, whichever scored more |
| UpdateScores.DetermineResult | src/app/api/cron/update-scores/route.ts:43-61 | without both entries the result is 0–0 with no winner; with both, the parsed scores and the winner of their comparison |
| UpdateScores.HomeWins | src/app/api/cron/update-scores/route.ts:43-61 | home wins exactly when both entries exist, both scores parse and home's is higher |
| UpdateScores.AwayWins | src/app/api/cron/update-scores/route.ts:43-61 | away wins exactly when both entries exist, both scores parse and away's is higher |
| UpdateScores.NoWinner | src/app/api/cron/update-scores/route.ts:43-61 | no winner exactly for a missing entry, an unparsable score or a tie; without both entries the scores stay 0–0 |
| UpdateScores.WinnerHasScores | src/app/api/cron/update-scores/route.ts:43-61 | a winner is home or away and comes with both scores |
| UpdateScores.EventStatus | src/app/api/cron/update-scores/route.ts:67 | `completed` exactly for a completed game, `live` otherwise |
| UpdateScores.Resolve | src/lib/ai/learning-engine.ts:18-62 | a resolved prediction records correctness, the actual winner and the score, keeping its identity and pick |
| UpdateScores.ResolveEvent | src/app/api/cron/update-scores/route.ts:120-143 | the number of predictions is kept |
| UpdateScores.ResolveEventAt | src/app/api/cron/update-scores/route.ts:125-137 | each prediction is resolved exactly when it belongs to the event and is unresolved |
| UpdateScores.ResolveEventEffect | src/app/api/cron/update-scores/route.ts:125-137 | selected predictions are resolved, all others are unchanged, and afterwards every prediction of the event is resolved |
| UpdateScores.ResolveEventIdempotent | src/app/api/cron/update-scores/route.ts:125-137 | processing the event again, with any result, changes nothing |
| UpdateScores.ResolveEventKeepsResolved | src/app/api/cron/update-scores/route.ts:125-130 | an already resolved prediction is never touched |
| UpdateScores.KeepsResolvedTransitive | src/app/api/cron/update-scores/route.ts:125-130 | never touching resolved predictions composes over steps |
| UpdateScores.DecidedIs | src/app/api/cron/update-scores/route.ts:84 | a game is handed on exactly when it is completed and has a winner |
| UpdateScores.GameStepResolvesOnlyDecided | src/app/api/cron/update-scores/route.ts:84-91 | predictions change only for a completed game with a winner, so tied games are never resolved |
| UpdateScores.RefusedGameOnlyLogs | src/app/api/cron/update-scores/route.ts:77-79 | a refused update only records the game id as an error |
| UpdateScores.FailedFetchOnlyLogs | src/app/api/cron/update-scores/route.ts:97-100 | a failed fetch only records `sport: message` |
| UpdateScores.SoundTransitive | src/app/api/cron/update-scores/route.ts:28-101 | the run's invariant composes over steps |
| UpdateScores.GameStepSound | src/app/api/cron/update-scores/route.ts:32-92 | one game keeps counters growing, completed growth within updated growth, errors extended, resolved predictions untouched |
| UpdateScores.GamesStepSound | src/app/api/cron/update-scores/route.ts:32-93 | so does a sport's list of games |
| UpdateScores.SportsStepSound | src/app/api/cron/update-scores/route.ts:28-101 | and so do the sports |
| UpdateScores.Run | src/app/api/cron/update-scores/route.ts:19-101 | completed never exceeds updated, and resolved predictions are untouched |
| UpdateScores.FailureThenRest | src/app/api/cron/update-scores/route.ts:97-100 | after a failed sport the remaining sports are still processed |
| UpdateScores.ScoreStore.constructor | src/app/api/cron/update-scores/route.ts:34-38 | the store holds the given tables |
| UpdateScores.ScoreStore.ProcessCompletedGame | src/app/api/cron/update-scores/route.ts:120-143 | the event's unresolved predictions are resolved in place; status and scores are unchanged |
| UpdateScores.ScoreStore.UpdateGame | src/app/api/cron/update-scores/route.ts:32-92 | one game updates the tables and counters as the game step says |
| UpdateScores.ScoreStore.WriteEvent | src/app/api/cron/update-scores/route.ts:63-91 | the status and final score are written, and the predictions are processed only for a completed game with a winner |
| UpdateScores.ScoreStore.UpdateSport | src/app/api/cron/update-scores/route.ts:29-100 | one sport updates the tables and counters as the sport step says |
| UpdateScores.ScoreStore.UpdateScores | src/app/api/cron/update-scores/route.ts:19-101 | the tables and results are those of the run over nfl, nba, ncaab and ncaaf; completed never exceeds updated; resolved predictions are untouched |
| Format.FormatOdds | src/lib/utils/format.ts:4-9 | the text starts with `+` exactly for positive odds and with `-` exactly for negative ones |
| Format.FormatOddsParses | src/lib/utils/format.ts:4-9 | the text reads back as the odds |
| Format.OddsSign | src/lib/utils/format.ts:4-9 | the sign is `-` exactly for negative odds |
| Format.FormatOddsText | src/lib/utils/format.ts:4-9 | the text is the sign and the digits of the magnitude |
| Format.EdgeClass | src/lib/utils/format.ts:37-41 | bold green exactly from 5, green from 2 to 5, yellow from 0 to 2, red below 0 |
| Format.EdgeText | src/lib/utils/format.ts:35 | the text ends in `%` |
| Format.EdgeTextSign | src/lib/utils/format.ts:35 | it starts with `+` exactly for a positive edge, and with `-` for a negative one |
| Format.FormatEdge | src/lib/utils/format.ts:31-44 | the display is the edge's class and text |
| Format.FormatConfidenceClass | src/lib/utils/format.ts:59-71 | green exactly from 90, blue from 75 to 90, yellow from 65 to 75, red below 65 |
| Format.ConfidenceClassMonotone | src/lib/utils/format.ts:59-71 | a higher confidence never gets a lower class |
| Format.Prefix | src/lib/utils/format.ts:174-177 | `substring(0, n)` is a prefix, clamped to the text |
| Format.Truncate | src/lib/utils/format.ts:174-177 | a text that fits is unchanged; otherwise its first characters and `...` |
| Format.TruncateShape | src/lib/utils/format.ts:174-177 | a truncated text has length max + 3: the first max characters, then `...` |
| Format.TruncateFits | src/lib/utils/format.ts:174-177 | truncating a fitting text twice gives it back |
| Format.FormatTeamName | src/lib/utils/format.ts:79-90 | a name that fits is unchanged; a long name with a space becomes its last word, shorter than the name and without spaces; one without becomes its truncation |
| Format.LookupOr | src/lib/utils/format.ts:111 | a table entry with text is used, otherwise the fallback |
| Format.TablesHaveText | src/lib/utils/format.ts:96-125 | every table entry has text |
| Format.FormatSportName | src/lib/utils/format.ts:95-112 | the table's name, or the key upper-cased exactly when the table has none |
| Format.FormatBetType | src/lib/utils/format.ts:117-128 | the table's name, or the bet type itself exactly when the table has none |
| Format.SynonymsAgree | src/lib/utils/format.ts:96-125 | the short and the API keys of a sport, and `total` and `over_under`, read the same |
| Format.FormatRecord | src/lib/utils/format.ts:182-187 | the text is wins, losses and, when there are some, ties, joined with `-` |
| Format.FormatRecordSplits | src/lib/utils/format.ts:182-187 | split at `-`, a record gives back wins and losses, then ties only when there are some |
| Format.FormatWinRate | src/lib/utils/format.ts:192-195 | no games print as a zero rate; otherwise the rate with one decimal and `%` |
| StateValidator.GetLegalStates | src/lib/legal/state-validator.ts:1-13 | 24 distinct codes |
| StateValidator.IsLegalStateCaseInsensitive | src/lib/legal/state-validator.ts:7-9 | a code is accepted exactly when its upper-case form is |
| StateValidator.LegalStatesUpper | src/lib/legal/state-validator.ts:1-5 | the listed codes are upper case |
| StateValidator.ListedStatesAccepted | src/lib/legal/state-validator.ts:1-13 | every listed code is accepted |
| StateValidator.IsLegalState | src/lib/legal/state-validator.ts:7-9 | every accepted code has two characters |
| StateValidator.Examples | src/lib/legal/state-validator.ts:1-9 | `CA` and `ca` are rejected; `ny` and `Ny` are accepted |

## Left out

- Database, LLM, odds-API and Stripe calls, and logging, are not modelled. Tables are in-memory values or a class. The rows a query would return are inputs: the event lookup of a score, updates the database refuses, and the learning rows.
- Date and time-zone library results are inputs: local midnight, calendar month and year, and age in days. `formatRelativeTime`, `formatCountdown`, `formatCurrency` and `formatPercent` depend on the clock or `Intl`, so they are left out.
- Numbers are exact rationals and unbounded integers. IEEE rounding, `NaN`, `Infinity` and the exact digits of `toFixed` are not modelled. `toFixed(1)` is written as rounding to tenths.
- EdgeCalculator.AmericanToDecimal, EdgeCalculator.DecimalToAmerican, EdgeCalculator.EdgeScore, EdgeCalculator.ExpectedValue, EdgeCalculator.ROI, EdgeCalculator.FairOdds and EdgeCalculator.RemoveVig: these require the inputs for which the code divides by zero (odds 0, decimal odds 1, stake 0, probability 0 or 100, both odds 0). There the code yields `Infinity` or `NaN`.
- EdgeCalculator.FindBestOdds: a quote without usable odds stands for the code's `-Infinity`/`NaN` comparisons, as none.
- The order of `Object.entries` over a context is the order of the sequence given. Keys inherited from prototypes are not modelled.
- ResponseParser.ParseTrueProbability and ParseConfidence: they read the first digit run as the code does. `parseFloat` of other text is not modelled.
- ClaudeAgent.BuildPrompt and PromptBuilder.BuildPrompt: they require values without `$`, because JavaScript `replace` gives `$&`, `$1` and similar sequences a special meaning. ClaudeAgent.BuildPrompt also requires plain keys, because the agent builds an unescaped regular expression from each key.
- Unicode case mapping is modelled for ASCII letters only. String lengths count characters, not UTF-16 units.
- LearningEngine.SortByRate: it is a stable insertion sort. The model proves the order and the permutation, not that equal rates keep their order.
- LearningEngine.AnalyzeFactorPerformance: the `NaN` average the code computes when no factor qualifies is not modelled; both lists are then empty.
- LearningEngine.AnalyzeFactorPerformance lists factors in first-use order, which `Object.entries` does not always do. A factor that looks like an array index (`"3"`) is listed first, in numeric order, and the stable sort keeps that order among equal rates, so the lists and the insights text can differ. A factor named like a built-in object property (`constructor`, `toString`, `__proto__`) is never initialised by the code's truthiness test and is dropped, while the model counts it. JavaScript object keys are not modelled.
- `formatConfidence` is modelled for its class only. Its `toFixed(0)` text is left out.
- `processPredictionOutcome`: the model covers what it writes on the prediction (correctness, actual winner, actual score), as UpdateScores.Resolve. `createLearningDataEntry`, `markPredictionBad` and the `resolved_at`/`updated_at` timestamps are left out.
- UpdateScores.ScoreStore.UpdateScores models the authorized path only. The header check is CronAuth.Authorized. The outer `500` catch is not modelled.
- `getEventData`, `storePrediction`, `callClaude`, `buildPredictionContext`, `generatePrediction`, `getStateFromIP`, `checkQuota` and the odds fetches are I/O and are left out.
- Concurrent runs are not modelled. In particular, the unlocked read-modify-write of quota counters is sequential in the model.
