# Rapport engine — a verified Dafny model

This project models the rapport-scoring engine of a sales-training
application. A trainee (the salesperson, any role other than
`"assistant"`) talks to a simulated customer (role `"assistant"`). Every
utterance is checked against a fixed library of 40 Chinese-language rules:

- 15 positive rules, trust-building patterns of the trainee;
- 25 negative rules, resistance patterns of the customer for one customer type.

A turn's matches give a signed rapport change. The change moves a score in
[0, 100] through a damped, clamped update. Replaying a whole conversation
gives:

- the events;
- a trajectory of scores;
- the critical moments;
- a text summary.

Modules, following the two core files `lib/rapport/rules.ts` and
`lib/rapport/engine.ts`:

| module | file | models |
|---|---|---|
| `Rules` | `rules.dfy` | `rules.ts`: the rule record, the constant table, and the filter and lookup queries |
| `Matching` | `matching.dfy` | `disambiguateTaiwaneseExpression` and `isRuleMatched` |
| `Scoring` | `scoring.dfy` | `calculateNewRapportScore`, `getRapportStatus` and `getInitialRapportScore` |
| `Analysis` | `analysis.dfy` | `analyzeUtterance` |
| `Conversation` | `conversation.dfy` | `analyzeConversationHistory` |
| `Summary` | `summary.dfy` | `generateRapportSummary` |
| `Strings`, `Sequences`, `Wrappers` | | helpers: the JavaScript string builtins the engine uses (`includes`, `startsWith`, `toLowerCase`, `trim`, `join`, number formatting), `Array.prototype.filter`, and `Option` |

Modelling choices:

- **Tenths.** Decimal weights (0.8 to 1.8) and the damping factors (0.7, 0.8, 1.2) are carried as integers times ten, so all arithmetic is exact. `Math.round(x)` is `floor(x + 0.5)`, which is `(t + 5) / 10` on tenths.
- **Functions plus methods.** The imperative parts of `engine.ts` are methods proved equal to pure functions that define their results:
  - the flag setting of the disambiguation;
  - the `let newScore` reassignment;
  - the matching loop of `analyzeUtterance`;
  - the turn loop of `analyzeConversationHistory`;
  - the `lines.push` loops of the summary.

  The properties are lemmas about those functions.
- **Replay over any analyser.** The conversation replay is stated for an arbitrary analyser `Turn -> AnalysisResult`. `TurnAnalyzer(s, c)` instantiates it with `analyzeUtterance` for the session's scenario and customer type. Properties that need the real rule table go through `SignsBySpeaker`, which `TurnAnalyzerSigns` proves of `TurnAnalyzer`.

Behaviour of the code worth noting:

- No role is rejected: any speaker other than `"assistant"` is analysed as the trainee (`engine.ts:74-80`).
- Unknown scenarios and customer types cannot occur, because they are Dafny datatypes.
- An event records `matchedRules[0]` and the undamped `rapportChange` (`engine.ts:316-319`).
- In a `phone_invite` session the only positive rule is `positive_guanxi_connection` (`rules.ts:202-216`, `rules.ts:681-697`). So a trainee turn such as `我理解您的疑慮` matches no rule there.

## Model

| member | source | states |
|---|---|---|
| Rules.WellFormedRule | lib/rapport/rules.ts:17-31 | a rule has keywords, all non-empty, and a scenario. A negative rule names a customer type and has negative impact. A positive rule names none, is congruent and has positive impact. The weight is in [0.8, 1.8] |
| Rules.PositiveTableWellFormed | lib/rapport/rules.ts:683-697 | the positive half of the table has 15 rules, each well formed and positive |
| Rules.NegativeTableWellFormed | lib/rapport/rules.ts:700-728 | the negative half of the table has 25 rules, each well formed and negative |
| Rules.RuleTableWellFormed | lib/rapport/rules.ts:681-729 | `RAPPORT_RULES` has 40 rules, all well formed, and the positive ones are exactly the first 15 |
| Rules.RuleIdsDistinct | lib/rapport/rules.ts:681-729 | the 40 rule ids are pairwise distinct |
| Rules.GetRelevantRules | lib/rapport/rules.ts:732-751 | every returned rule meets the scenario, customer-type and rule-type conditions |
| Rules.GetRelevantRulesSelects | lib/rapport/rules.ts:732-751 | `getRelevantRules(s, c, t)` is an order-preserving sublist of the table. A rule is in it exactly when it is in the table, its scenarios contain `s`, it is positive or has customer type `c`, and, if `t` is given, it has rule type `t` |
| Rules.GetPositiveRules | lib/rapport/rules.ts:759-767 | returns only positive rules, and with a scenario only rules for that scenario |
| Rules.GetPositiveRulesSelects | lib/rapport/rules.ts:759-767 | an order-preserving sublist of the table, holding exactly the positive rules for the scenario, or all positive rules when none is given |
| Rules.AllPositiveRules | lib/rapport/rules.ts:759-767 | with no scenario, exactly the 15 positive rules in table order |
| Rules.GetNegativeRules | lib/rapport/rules.ts:770-784 | returns only negative rules. A given scenario or customer type restricts the result to rules for it |
| Rules.GetNegativeRulesSelects | lib/rapport/rules.ts:770-784 | an order-preserving sublist of the table, holding exactly the negative rules that pass both filters, where an omitted filter passes every rule |
| Rules.AllNegativeRules | lib/rapport/rules.ts:770-784 | with no filter, exactly the 25 negative rules in table order |
| Rules.NegativeRulesAreRelevantRules | lib/rapport/rules.ts:732-784 | `getNegativeRules(s, c) == getRelevantRules(s, c, "negative")` |
| Rules.PositiveRulesAreRelevantRules | lib/rapport/rules.ts:732-767 | `getPositiveRules(s) == getRelevantRules(s, c, "positive")` for every customer type `c` |
| Rules.RelevantSplits | lib/rapport/rules.ts:732-784 | over positive rules followed by negative ones, the relevant rules are the positive rules for the scenario followed by the negative rules for the scenario and customer type |
| Rules.RelevantRulesArePositiveThenNegative | lib/rapport/rules.ts:681-751 | the unrestricted `getRelevantRules(s, c)` is `getPositiveRules(s)` followed by `getNegativeRules(s, c)` |
| Rules.FindById | lib/rapport/rules.ts:755 | `find` by id returns the first rule with that id, and nothing exactly when no rule has it |
| Rules.FindByIdDistinct | lib/rapport/rules.ts:755 | with pairwise distinct ids, looking up the id of the rule at position `i` returns that rule |
| Rules.GetRuleById | lib/rapport/rules.ts:754-756 | a found rule has the requested id and is in the table. Nothing is found exactly when no rule has the id |
| Rules.GetRuleByIdFindsEachRule | lib/rapport/rules.ts:754-756 | looking up the id of any rule in the table returns that very rule |
| Rules.NegativeRulesLoseRapport | lib/rapport/rules.ts:770-784 | every rule `getNegativeRules` returns is well formed and has negative weighted impact |
| Rules.PositiveRulesGainRapport | lib/rapport/rules.ts:759-767 | every rule `getPositiveRules` returns is well formed and has positive weighted impact |
| Rules.PositiveEmpathyForMarketing | lib/rapport/rules.ts:36-49 | the empathy rule is among the positive rules for product marketing |
| Matching.DisambiguateTaiwaneseExpression | lib/rapport/engine.ts:419-465 | the flags set branch by branch equal `DisambiguationOf`. A polite opening only comes from text starting with `不好意思`, and a genuine consideration only from text containing `考慮` |
| Matching.DisambiguationExclusive | lib/rapport/engine.ts:433-455 | a polite opening is never also an apologetic refusal. A genuine consideration is never also a soft refusal. Polite opening together with rejection needs the `考慮` or `了解` branch |
| Matching.PoliteOpeningStartsText | lib/rapport/engine.ts:433-437 | a polite opening implies the text starts with `不好意思` |
| Matching.ReferentMakesGenuine | lib/rapport/engine.ts:445-449 | `考慮`, then one to five non-line-terminator characters, then one of the six referents, anywhere in the text, makes it a genuine consideration |
| Matching.ApologeticRefusalExample | lib/rapport/engine.ts:433-442 | `"不好意思，不需要"` is a rejection, not a polite opening, and not a consideration |
| Matching.ApologyWithoutQuestion | lib/rapport/engine.ts:432-465 | `不好意思` with `不需要` or `不用`, and without `請問`, `想`, `考慮` or `了解`, sets the rejection flag and no other |
| Matching.NoVetoWithoutAmbiguity | lib/rapport/engine.ts:134-155 | without `不好意思` and `考慮` in the normalised text, no veto applies to any rule |
| Matching.ConsiderationExamples | lib/rapport/engine.ts:445-453 | `"我再考慮一下"` is a rejection and not a genuine consideration. `"我要考慮一下預算"` is a genuine consideration |
| Matching.IsRuleMatched | lib/rapport/engine.ts:119-213 | a rule matches exactly when a lower-cased keyword occurs in the normalised text, no disambiguation veto applies, and every recognised sentence-pattern tag holds of the original text. A rule without tags needs only the first two |
| Scoring.RoundTenths | lib/rapport/engine.ts:241 | `Math.round` of a tenths value is the integer within half a unit, with halves going up |
| Scoring.RoundTenthsMonotone | lib/rapport/engine.ts:241 | rounding is monotone |
| Scoring.RoundTenthsExact | lib/rapport/engine.ts:241 | integers round to themselves |
| Scoring.RoundHalfUp | lib/rapport/engine.ts:98 | `Math.round(-4.5) == -4`, `Math.round(2.5) == 3` and `Math.round(-4.6) == -5` |
| Scoring.Clamp | lib/rapport/engine.ts:241 | the result is in [0, 100] and equals the input inside that range. Below it the result is 0, above it 100 |
| Scoring.RegimeFactorTenths | lib/rapport/engine.ts:225-238 | the factor is between 0.7 and 1.2. It differs from 1 exactly when the change is non-zero and the score is strictly below 30 or strictly above 70 |
| Scoring.NewRapportScore | lib/rapport/engine.ts:219-242 | the new score is in [0, 100] |
| Scoring.CalculateNewRapportScore | lib/rapport/engine.ts:219-242 | the reassigned `newScore` rounded and clamped equals `NewRapportScore`, and is in [0, 100] |
| Scoring.UndampedInMiddle | lib/rapport/engine.ts:223-239 | for a score from 30 to 70 inclusive, or a zero change, the change is applied undamped and then clamped |
| Scoring.WorkedExamples | lib/rapport/engine.ts:223-241 | (20, +10) gives 27, (20, -10) gives 8, (80, -10) gives 72, (80, +10) gives 88. (30, +10) gives 40 and (70, -10) gives 60. The bounds clamp: (95, +10) gives 100 and (5, -10) gives 0 |
| Scoring.NewRapportScoreMonotone | lib/rapport/engine.ts:219-242 | for a fixed score, a larger change never gives a lower new score |
| Scoring.NewRapportScoreDirection | lib/rapport/engine.ts:219-242 | from an in-range score, a gain never lowers the score, a loss never raises it, and no change keeps it |
| Scoring.DampingBounds | lib/rapport/engine.ts:225-238 | in each boundary regime the score moves by at most its factor times the change, up to rounding |
| Scoring.GetRapportStatus | lib/rapport/engine.ts:248-277 | the status keeps the score. Danger exactly below 30, warning exactly from 30 below 70, good exactly from 70. The colour is the band's own |
| Scoring.StatusBandEdges | lib/rapport/engine.ts:249-269 | 29 is danger, 30 and 69 are warning, 70 is good |
| Scoring.StatusMonotone | lib/rapport/engine.ts:248-277 | a higher score is never in a lower band |
| Scoring.WarningBandUndamped | lib/rapport/engine.ts:248-277 | in the warning band the score update applies a change undamped |
| Scoring.GetInitialRapportScore | lib/rapport/engine.ts:400-413 | the seed score is between 40 and 50 and lies in the warning band. It is 50 exactly for neutral customers, 40 exactly for skeptical ones, and 45 exactly for avoidant and insured ones |
| Scoring.InitialScoresOrdered | lib/rapport/engine.ts:400-413 | skeptical < avoidant == has_insurance < neutral |
| Analysis.Normalize | lib/rapport/engine.ts:64 | the normalised text is no longer than the utterance and neither starts nor ends with whitespace |
| Analysis.NormalizeTrims | lib/rapport/engine.ts:64 | the normalised text has no ASCII capitals, and it is the lower-cased utterance with only whitespace removed, and only from the two ends |
| Analysis.CandidateRulesSelect | lib/rapport/engine.ts:72-80 | `CandidateRules` is an order-preserving sublist of the table. For a customer (`"assistant"`) turn it holds exactly the negative rules for the scenario and customer type. For any other speaker it holds exactly the positive rules for the scenario |
| Analysis.NormalizeKeepsText | lib/rapport/engine.ts:64 | text without whitespace or capitals that occurs in the utterance still occurs after `toLowerCase().trim()` |
| Analysis.NormalizeOnlyRemoves | lib/rapport/engine.ts:64 | normalisation creates no new occurrence of a text without ASCII letters |
| Analysis.SumImpactSign | lib/rapport/engine.ts:92-95 | a sum of weighted impacts that all share a sign has that sign |
| Analysis.PrimaryIndex | lib/rapport/engine.ts:101-105 | the primary rule has maximal absolute weighted impact, and every earlier rule has strictly less: the earliest maximum wins ties |
| Analysis.Aggregate | lib/rapport/engine.ts:90-110 | no matches give the empty result. Otherwise the total is the sum of impact times weight, the change is the total rounded, and posture, strategy and guide come from the earliest rule of maximal absolute weighted impact |
| Analysis.AnalysisOf | lib/rapport/engine.ts:50-113 | a normalised utterance shorter than 2 gives the empty result. The matches are an order-preserving sublist of the dual-track candidates, holding exactly the candidates the matcher accepts |
| Analysis.MatchRules | lib/rapport/engine.ts:83-87 | the loop pushes exactly the matching rules, in order |
| Analysis.AnalyzeUtterance | lib/rapport/engine.ts:50-113 | the result built step by step equals `AnalysisOf` |
| Analysis.DualTrack | lib/rapport/engine.ts:72-80 | a customer turn matches only negative rules for its scenario and customer type. Any other turn matches only positive rules for its scenario |
| Analysis.AggregateSign | lib/rapport/engine.ts:90-98 | over rules whose weighted impacts share a sign, the total and the rounded change have that sign |
| Analysis.CandidateSigns | lib/rapport/engine.ts:72-80 | every candidate of a customer turn has a negative weighted impact. Every candidate of a trainee turn has a positive one |
| Analysis.ChangeSign | lib/rapport/engine.ts:72-98 | a customer turn's total and change are never positive. A trainee turn's are never negative |
| Analysis.KeywordGate | lib/rapport/engine.ts:125-131 | every matched rule has a lower-cased keyword inside the normalised utterance |
| Analysis.Vetoes | lib/rapport/engine.ts:134-155 | a polite opening never matches a rule whose intent contains `拒絕`. An apologetic refusal never matches one whose intent contains `禮貌`. A genuine consideration never matches a `Soft Rejection` rule |
| Analysis.UnambiguousNotVetoed | lib/rapport/engine.ts:134-155 | an utterance without `不好意思` and `考慮` is vetoed for no rule |
| Analysis.VetoedRulesNeverMatch | lib/rapport/engine.ts:134-155 | the three vetoes hold for every rule in the result of `analyzeUtterance` |
| Analysis.NoKeywordNoEffect | lib/rapport/engine.ts:125-131 | without a keyword of any candidate rule, the utterance has no effect |
| Analysis.EmpathyRuleMatches | lib/rapport/engine.ts:119-213 | a text containing `我理解` and neither `不好意思` nor `考慮` matches the empathy rule |
| Analysis.MatchedCandidateSelected | lib/rapport/engine.ts:63-87 | a candidate rule that matches a long enough utterance is among the matches |
| Analysis.EmpathyRuleSelected | lib/rapport/engine.ts:50-113 | in product marketing, such a trainee utterance has the empathy rule among its matches, whatever the customer type |
| Analysis.EmpathyExample | lib/rapport/engine.ts:50-113 | `"我理解您的顧慮"` from the trainee in product marketing matches the empathy rule |
| Conversation.AnalyzeConversationHistory | lib/rapport/engine.ts:283-337 | the events, final score, trajectory and critical moments built by the loop equal `HistoryOf` for `analyzeUtterance` |
| Conversation.TrajectoryShape | lib/rapport/engine.ts:296-326 | the trajectory has one more point than there are turns. It starts at the initial score and ends at the final score, and each point is the previous one updated by that turn |
| Conversation.TrajectoryInRange | lib/rapport/engine.ts:296-326 | from an in-range initial score, every trajectory point is in [0, 100] |
| Conversation.TurnAnalyzerSigns | lib/rapport/engine.ts:300-305 | with `analyzeUtterance`, customer turns never have a positive change and trainee turns never a negative one |
| Conversation.NextScoreDirection | lib/rapport/engine.ts:308-310 | under that sign discipline, a customer turn never raises the score and a trainee turn never lowers it |
| Conversation.TraineeOnlyNeverLowers | lib/rapport/engine.ts:296-326 | a conversation of trainee turns only has a non-decreasing trajectory |
| Conversation.CustomerOnlyNeverRaises | lib/rapport/engine.ts:296-326 | a conversation of customer turns only has a non-increasing trajectory |
| Conversation.EventsForTriggeringTurns | lib/rapport/engine.ts:307-323 | the events come, in order, from exactly the turns with at least one match |
| Conversation.EventsRecorded | lib/rapport/engine.ts:307-323 | each event records the turn's first matched rule and undamped change, and `scoreAfter == calculateNewRapportScore(scoreBefore, change)` |
| Conversation.EventChain | lib/rapport/engine.ts:296-336 | the first event starts at the initial score, each event starts where the previous one ended, and the last ends at the final score. Without events the final score is the initial one |
| Conversation.EventCount | lib/rapport/engine.ts:307-323 | there is one event per triggering turn, so never more events than turns |
| Conversation.EventDirections | lib/rapport/engine.ts:307-323 | from an in-range initial score every event starts and ends in range. Customer events never raise the score and trainee events never lower it |
| Conversation.SessionEventDirections | lib/rapport/engine.ts:283-337 | the same directions hold for a session replayed with `analyzeUtterance` |
| Conversation.CriticalMoments | lib/rapport/engine.ts:329 | the critical moments are an order-preserving sublist of the events, holding exactly those with absolute change at least 5 |
| Conversation.EmptyConversation | lib/rapport/engine.ts:294-336 | an empty conversation has no events, keeps the initial score and has a one-point trajectory |
| Summary.Quote | lib/rapport/engine.ts:370 | a quote is at most 53 characters. An utterance of at most 50 is quoted whole. A longer one is cut to its first 50 followed by `...` |
| Summary.SignedNumberSign | lib/rapport/engine.ts:354 | the overall change starts with `+` exactly when positive and with `-` exactly when negative, and 0 is written `0` |
| Summary.SignedNumberValue | lib/rapport/engine.ts:354 | after the sign, the digits read back as the size of the change |
| Summary.EventLines | lib/rapport/engine.ts:369-391 | an event takes three to five lines |
| Summary.GroupLines | lib/rapport/engine.ts:369-391 | a group of `n` events takes between `3n` and `5n` lines |
| Summary.PushEventLines | lib/rapport/engine.ts:369-391 | one `forEach` callback appends exactly that event's lines |
| Summary.AppendGroupLines | lib/rapport/engine.ts:369-391 | the `forEach` loop appends the group's events, numbered from 1 |
| Summary.PushGroup | lib/rapport/engine.ts:367-392 | a non-empty group appends its heading with the count and its events. An empty group appends nothing |
| Summary.GenerateRapportSummary | lib/rapport/engine.ts:343-394 | the text built by pushing lines is `SummaryLines` joined with newlines |
| Summary.SummaryShape | lib/rapport/engine.ts:348-362 | the six header lines always come first, with the signed overall change. The seventh line is the no-events line exactly when there are no events, which is then the last line. Otherwise it is the event count |
| Summary.EventsGrouped | lib/rapport/engine.ts:364-365 | the positive group is, in order, exactly the events with positive change, and the negative group exactly those with negative change |
| Summary.ZeroChangeOnlyCounted | lib/rapport/engine.ts:358-392 | appending a zero-change event to a non-empty list only changes the event count line |
| Summary.GroupsFollowSpeakers | lib/rapport/engine.ts:364-392 | in a replayed conversation with sign discipline, no customer event is listed as a gain and every loss is a customer event |

## Left out

- `RapportEvent.timestamp` (`new Date()`) is not modelled. It is a clock read and nothing in the engine depends on it.
- Floating point is not modelled. Weights and damping factors are exact tenths, so the binary-float artefacts at exact .5 ties (for example `5 * 0.7` evaluating to `3.4999999999999996`) are not reproduced.
- Strings are sequences of Unicode code points. JavaScript's `length`, `substring(0, 50)` and regex `.` work on UTF-16 code units, which differ only for characters outside the Basic Multilingual Plane. So the `短句` length test and `Quote` are modelled on code points.
- `Normalize`: `toLowerCase` is ASCII-only. The rules' only Latin text is `email` and `CP值`.
- `Normalize`: `trim` uses the JavaScript whitespace set of the Basic Multilingual Plane.
- Regular expressions are modelled only as the explicit predicates for the patterns the engine uses, not in general.
- `getInitialRapportScore`: the `default` branch (`engine.ts:410-411`) cannot be reached. Customer types are a closed datatype.
- Optional `ruleType`, `scenario` and `customerType` filters are `Option` values.
- Scores are integers. `initialScore` is a JavaScript `number` (`engine.ts:287`, `engine.ts:346`), so a caller could pass a fractional score. The model accepts only whole scores, which is what the engine itself produces (`Math.round` in `calculateNewRapportScore` and integer seeds in `getInitialRapportScore`).
- The display strings of `getRapportStatus` are carried as constants and not reasoned about beyond the colour. Its `label` field is named `labelText`.
- The `sentencePatterns` field, which can be absent, is the empty sequence when absent. This is the same case as an empty list at `engine.ts:158-160`.
