/** Utterance analysis of the rapport engine (lib/rapport/engine.ts,
    `analyzeUtterance`): normalisation, the short-input guard, dual-track rule
    selection, matching, weighted aggregation and choice of the primary
    rule. */
module Analysis {

  import opened Wrappers
  import opened Strings
  import opened Sequences
  import opened Rules
  import opened Matching
  import opened Scoring

  /** `AnalysisResult`, with `totalImpact` carried in tenths. */
  datatype AnalysisResult = AnalysisResult(
    matchedRules: seq<Rule>,
    rapportChange: int,
    totalImpactTenths: int,
    detectedPosture: Option<SatirPosture>,
    suggestedStrategy: Option<string>,
    responseGuide: Option<string>)

  /** The initial result: nothing matched. */
  const NoEffect: AnalysisResult := AnalysisResult([], 0, 0, None, None, None)

  /** `utterance.toLowerCase().trim()` */
  function Normalize(u: string): (n: string)
    ensures |n| <= |u|
    ensures n != [] ==> !IsWhitespace(n[0]) && !IsWhitespace(n[|n| - 1])
  {
    Trim(Lower(u))
  }

  /** Normalisation lower-cases the utterance and removes whitespace from
      its two ends and nothing else. */
  lemma NormalizeTrims(u: string)
    ensures forall k :: 0 <= k < |Normalize(u)| ==> !IsAsciiUpper(Normalize(u)[k])
    ensures exists a, e :: 0 <= a <= e <= |u| && Normalize(u) == Lower(u)[a..e] &&
              (forall k :: 0 <= k < a ==> IsWhitespace(Lower(u)[k])) &&
              (forall k :: e <= k < |u| ==> IsWhitespace(Lower(u)[k]))
  {
    var l := Lower(u);
    var a, e := LeadingWhitespace(l), TrimEnd(l);
    TrimEndTrailing(l);
    assert Normalize(u) == l[a..e];
    forall k | 0 <= k < |Normalize(u)| ensures !IsAsciiUpper(Normalize(u)[k]) {
      assert Normalize(u)[k] == l[a + k] == LowerChar(u[a + k]);
    }
  }

  /** Text without whitespace and capitals survives normalisation. */
  lemma {:induction false} NormalizeKeepsText(u: string, t: string)
    requires Contains(u, t) && t != []
    requires forall k :: 0 <= k < |t| ==> !IsWhitespace(t[k]) && !IsAsciiUpper(t[k])
    ensures Contains(Normalize(u), t)
  {
    var i :| 0 <= i <= |u| && StartsWith(u[i..], t);
    assert u[i..i + |t|] == t by {
      assert u[i..][..|t|] == u[i..i + |t|];
    }
    LowerKeepsInner(u, t, i);
    TrimKeepsInner(Lower(u), t, i);
  }

  /** The dual track: a customer (`"assistant"`) turn is tested against the
      negative rules of the scenario and customer type, any other speaker's
      turn against the positive rules of the scenario. */
  function CandidateRules(scenario: Scenario, customerType: CustomerType, speaker: string): seq<Rule> {
    if speaker == "assistant" then GetNegativeRules(Some(scenario), Some(customerType))
    else GetPositiveRules(Some(scenario))
  }

  /** The dual track selects exactly the negative rules for the scenario and
      customer type for a customer turn, and exactly the positive rules for
      the scenario for any other turn, in table order. */
  lemma CandidateRulesSelect(scenario: Scenario, customerType: CustomerType, speaker: string)
    ensures IsSublist(CandidateRules(scenario, customerType, speaker), RapportRules)
    ensures speaker == "assistant" ==>
              forall r :: r in CandidateRules(scenario, customerType, speaker) <==>
                r in RapportRules && r.ruleType == Negative && scenario in r.scenario &&
                r.customerType == Some(customerType)
    ensures speaker != "assistant" ==>
              forall r :: r in CandidateRules(scenario, customerType, speaker) <==>
                r in RapportRules && r.ruleType == Positive && scenario in r.scenario
  {
    if speaker == "assistant" {
      GetNegativeRulesSelects(Some(scenario), Some(customerType));
    } else {
      GetPositiveRulesSelects(Some(scenario));
    }
  }

  /** The rules of `rules` that match the utterance, in order. */
  function MatchingRules(u: string, rules: seq<Rule>): seq<Rule> {
    Filter(rules, r => IsRuleMatched(Normalize(u), r, u))
  }

  /** `matchedRules.reduce((sum, rule) => sum + rule.rapportImpactScore * rule.weight, 0)`,
      in tenths. */
  function SumImpactTenths(rules: seq<Rule>): int {
    if |rules| == 0 then 0
    else SumImpactTenths(rules[..|rules| - 1]) + rules[|rules| - 1].WeightedImpactTenths()
  }

  /** The sum over rules whose weighted impacts all have one sign has that
      sign. */
  lemma {:induction false} SumImpactSign(rules: seq<Rule>)
    ensures (forall k :: 0 <= k < |rules| ==> rules[k].WeightedImpactTenths() <= 0) ==>
              SumImpactTenths(rules) <= 0
    ensures (forall k :: 0 <= k < |rules| ==> rules[k].WeightedImpactTenths() >= 0) ==>
              SumImpactTenths(rules) >= 0
  {
    if |rules| > 0 {
      var init := rules[..|rules| - 1];
      assert forall k :: 0 <= k < |init| ==> init[k] == rules[k];
      SumImpactSign(init);
    }
  }

  function Abs(x: int): nat {
    if x < 0 then -x else x
  }

  /** The index of the rule `reduce((prev, current) => currentImpact > prevImpact ? current : prev)`
      returns: the first rule of maximal absolute weighted impact. */
  function PrimaryIndex(rules: seq<Rule>): (p: nat)
    requires |rules| > 0
    ensures p < |rules|
    ensures forall k :: 0 <= k < |rules| ==>
              Abs(rules[k].WeightedImpactTenths()) <= Abs(rules[p].WeightedImpactTenths())
    ensures forall k :: 0 <= k < p ==>
              Abs(rules[k].WeightedImpactTenths()) < Abs(rules[p].WeightedImpactTenths())
  {
    if |rules| == 1 then 0
    else
      var init := rules[..|rules| - 1];
      assert forall k :: 0 <= k < |init| ==> init[k] == rules[k];
      var prev := PrimaryIndex(init);
      var last := |rules| - 1;
      if Abs(rules[last].WeightedImpactTenths()) > Abs(rules[prev].WeightedImpactTenths()) then last
      else prev
  }

  /** What `analyzeUtterance` derives from its matched rules. */
  function Aggregate(matched: seq<Rule>): (res: AnalysisResult)
    ensures res.matchedRules == matched
    ensures |matched| == 0 ==> res == NoEffect
    ensures |matched| > 0 ==>
              && res.totalImpactTenths == SumImpactTenths(matched)
              && 10 * res.rapportChange - 5 <= res.totalImpactTenths < 10 * res.rapportChange + 5
              && exists p :: 0 <= p < |matched| &&
                   (forall k :: 0 <= k < |matched| ==>
                      Abs(matched[k].WeightedImpactTenths()) <= Abs(matched[p].WeightedImpactTenths())) &&
                   (forall k :: 0 <= k < p ==>
                      Abs(matched[k].WeightedImpactTenths()) < Abs(matched[p].WeightedImpactTenths())) &&
                   res.detectedPosture == Some(matched[p].satirPosture) &&
                   res.suggestedStrategy == Some(matched[p].rapportStrategy) &&
                   res.responseGuide == Some(matched[p].responseGuide)
  {
    if |matched| == 0 then NoEffect
    else
      var total := SumImpactTenths(matched);
      var primary := matched[PrimaryIndex(matched)];
      AnalysisResult(matched, RoundTenths(total), total,
                     Some(primary.satirPosture), Some(primary.rapportStrategy), Some(primary.responseGuide))
  }

  /** The result of `analyzeUtterance(u, scenario, customerType, speaker)`. */
  function AnalysisOf(u: string, scenario: Scenario, customerType: CustomerType, speaker: string): (res: AnalysisResult)
    ensures |Normalize(u)| < 2 ==> res == NoEffect
    ensures IsSublist(res.matchedRules, CandidateRules(scenario, customerType, speaker))
    ensures forall r :: r in res.matchedRules <==>
              |Normalize(u)| >= 2 && r in CandidateRules(scenario, customerType, speaker) &&
              IsRuleMatched(Normalize(u), r, u)
  {
    if |Normalize(u)| < 2 then NoEffect
    else
      var candidates := CandidateRules(scenario, customerType, speaker);
      FilterMembers(candidates, r => IsRuleMatched(Normalize(u), r, u));
      FilterSublist(candidates, r => IsRuleMatched(Normalize(u), r, u));
      Aggregate(MatchingRules(u, candidates))
  }

  /** The `for` loop of `analyzeUtterance`: pushes every rule of
      `relevantRules` that matches, in order. */
  method MatchRules(normalizedUtterance: string, relevantRules: seq<Rule>, utterance: string)
    returns (matchedRules: seq<Rule>)
    requires normalizedUtterance == Normalize(utterance)
    ensures matchedRules == MatchingRules(utterance, relevantRules)
  {
    ghost var matches := (r: Rule) => IsRuleMatched(Normalize(utterance), r, utterance);
    matchedRules := [];
    for i := 0 to |relevantRules|
      invariant matchedRules == Filter(relevantRules[..i], matches)
    {
      assert relevantRules[..i + 1] == relevantRules[..i] + [relevantRules[i]];
      FilterSnoc(relevantRules[..i], relevantRules[i], matches);
      if IsRuleMatched(normalizedUtterance, relevantRules[i], utterance) {
        matchedRules := matchedRules + [relevantRules[i]];
      }
    }
    assert relevantRules[..|relevantRules|] == relevantRules;
  }

  /** `analyzeUtterance(utterance, scenario, customerType, speaker)` */
  method AnalyzeUtterance(utterance: string, scenario: Scenario, customerType: CustomerType, speaker: string)
    returns (result: AnalysisResult)
    ensures result == AnalysisOf(utterance, scenario, customerType, speaker)
  {
    result := NoEffect;
    var normalizedUtterance := Trim(Lower(utterance));
    if |normalizedUtterance| < 2 {
      return;
    }
    var relevantRules: seq<Rule>;
    if speaker == "assistant" {
      relevantRules := GetNegativeRules(Some(scenario), Some(customerType));
    } else {
      relevantRules := GetPositiveRules(Some(scenario));
    }
    var matchedRules := MatchRules(normalizedUtterance, relevantRules, utterance);
    if |matchedRules| > 0 {
      var totalImpact := SumImpactTenths(matchedRules);
      var primaryRule := matchedRules[PrimaryIndex(matchedRules)];
      result := AnalysisResult(matchedRules, RoundTenths(totalImpact), totalImpact,
                               Some(primaryRule.satirPosture), Some(primaryRule.rapportStrategy),
                               Some(primaryRule.responseGuide));
    }
  }

  // ---------------------------------------------------------------------
  // Properties

  /** The dual track: a customer turn matches only negative rules for its
      scenario and customer type, a trainee turn only positive rules for its
      scenario. */
  lemma {:induction false} DualTrack(u: string, s: Scenario, c: CustomerType, speaker: string)
    ensures speaker == "assistant" ==>
              forall r :: r in AnalysisOf(u, s, c, speaker).matchedRules ==>
                r in GetNegativeRules(Some(s), Some(c)) &&
                r.ruleType == Negative && s in r.scenario && r.customerType == Some(c)
    ensures speaker != "assistant" ==>
              forall r :: r in AnalysisOf(u, s, c, speaker).matchedRules ==>
                r in GetPositiveRules(Some(s)) && r.ruleType == Positive && s in r.scenario
  {
  }

  /** Over rules whose weighted impacts share a sign, the aggregated impact
      and the rounded change have that sign. */
  lemma {:induction false} AggregateSign(u: string, rules: seq<Rule>)
    ensures (forall k :: 0 <= k < |rules| ==> rules[k].WeightedImpactTenths() <= 0) ==>
              Aggregate(MatchingRules(u, rules)).totalImpactTenths <= 0 &&
              Aggregate(MatchingRules(u, rules)).rapportChange <= 0
    ensures (forall k :: 0 <= k < |rules| ==> rules[k].WeightedImpactTenths() >= 0) ==>
              Aggregate(MatchingRules(u, rules)).totalImpactTenths >= 0 &&
              Aggregate(MatchingRules(u, rules)).rapportChange >= 0
  {
    var m := MatchingRules(u, rules);
    if forall k :: 0 <= k < |rules| ==> rules[k].WeightedImpactTenths() <= 0 {
      FilterKeeps(rules, r => IsRuleMatched(Normalize(u), r, u), (r: Rule) => r.WeightedImpactTenths() <= 0);
    }
    if forall k :: 0 <= k < |rules| ==> rules[k].WeightedImpactTenths() >= 0 {
      FilterKeeps(rules, r => IsRuleMatched(Normalize(u), r, u), (r: Rule) => r.WeightedImpactTenths() >= 0);
    }
    SumImpactSign(m);
  }

  /** With the signs of the rule table, a customer turn never raises the
      rapport and a trainee turn never lowers it. */
  lemma {:induction false} ChangeSign(u: string, s: Scenario, c: CustomerType, speaker: string)
    ensures speaker == "assistant" ==>
              AnalysisOf(u, s, c, speaker).totalImpactTenths <= 0 && AnalysisOf(u, s, c, speaker).rapportChange <= 0
    ensures speaker != "assistant" ==>
              AnalysisOf(u, s, c, speaker).totalImpactTenths >= 0 && AnalysisOf(u, s, c, speaker).rapportChange >= 0
  {
    if |Normalize(u)| >= 2 {
      CandidateSigns(s, c, speaker);
      AggregateSign(u, CandidateRules(s, c, speaker));
    }
  }

  /** A customer turn's candidates all lose rapport, a trainee turn's all
      gain it. */
  lemma CandidateSigns(s: Scenario, c: CustomerType, speaker: string)
    ensures speaker == "assistant" ==>
              forall k :: 0 <= k < |CandidateRules(s, c, speaker)| ==>
                CandidateRules(s, c, speaker)[k].WeightedImpactTenths() <= 0
    ensures speaker != "assistant" ==>
              forall k :: 0 <= k < |CandidateRules(s, c, speaker)| ==>
                CandidateRules(s, c, speaker)[k].WeightedImpactTenths() >= 0
  {
    if speaker == "assistant" {
      NegativeRulesLoseRapport(Some(s), Some(c));
    } else {
      PositiveRulesGainRapport(Some(s));
    }
  }

  /** The keyword gate: every matched rule has a lower-cased keyword inside
      the normalised utterance. */
  lemma {:induction false} KeywordGate(u: string, s: Scenario, c: CustomerType, speaker: string, r: Rule)
    requires r in AnalysisOf(u, s, c, speaker).matchedRules
    ensures exists k :: 0 <= k < |r.keywords| && Contains(Normalize(u), Lower(r.keywords[k]))
  {
  }

  /** The disambiguation vetoes, stated on the original utterance: a polite
      opening never matches a rule about refusal, an apologetic refusal never
      matches a rule about politeness, and a genuine consideration never
      matches a soft-rejection rule. */
  lemma {:induction false} Vetoes(u: string, rule: Rule)
    ensures PoliteOpeningText(u) && Contains(rule.intentClassification, "拒絕") ==>
              !IsRuleMatched(Normalize(u), rule, u)
    ensures ApologeticRefusalText(u) && Contains(rule.intentClassification, "禮貌") ==>
              !IsRuleMatched(Normalize(u), rule, u)
    ensures DisambiguationOf(u).isGenuineConsideration && Contains(rule.intentClassification, "Soft Rejection") ==>
              !IsRuleMatched(Normalize(u), rule, u)
  {
    if PoliteOpeningText(u) && Contains(rule.intentClassification, "拒絕") {
      PoliteOpeningVeto(u, rule);
    }
    if ApologeticRefusalText(u) && Contains(rule.intentClassification, "禮貌") {
      ApologeticRefusalVeto(u, rule);
    }
    if DisambiguationOf(u).isGenuineConsideration && Contains(rule.intentClassification, "Soft Rejection") {
      GenuineConsiderationVeto(u, rule);
    }
  }

  lemma PoliteOpeningVeto(u: string, rule: Rule)
    requires PoliteOpeningText(u) && Contains(rule.intentClassification, "拒絕")
    ensures Vetoed(Normalize(u), rule, u)
  {
    ContainsPrefix(u, "不好意思");
    NormalizeKeepsText(u, "不好意思");
  }

  lemma ApologeticRefusalVeto(u: string, rule: Rule)
    requires ApologeticRefusalText(u) && Contains(rule.intentClassification, "禮貌")
    ensures Vetoed(Normalize(u), rule, u)
  {
    NormalizeKeepsText(u, "不好意思");
  }

  lemma GenuineConsiderationVeto(u: string, rule: Rule)
    requires DisambiguationOf(u).isGenuineConsideration && Contains(rule.intentClassification, "Soft Rejection")
    ensures Vetoed(Normalize(u), rule, u)
  {
    NormalizeKeepsText(u, "考慮");
  }

  /** The vetoes carried over to every result of `analyzeUtterance`. */
  lemma {:induction false} VetoedRulesNeverMatch(u: string, s: Scenario, c: CustomerType, speaker: string)
    ensures PoliteOpeningText(u) ==>
              forall r :: r in AnalysisOf(u, s, c, speaker).matchedRules ==> !Contains(r.intentClassification, "拒絕")
    ensures ApologeticRefusalText(u) ==>
              forall r :: r in AnalysisOf(u, s, c, speaker).matchedRules ==> !Contains(r.intentClassification, "禮貌")
    ensures DisambiguationOf(u).isGenuineConsideration ==>
              forall r :: r in AnalysisOf(u, s, c, speaker).matchedRules ==>
                !Contains(r.intentClassification, "Soft Rejection")
  {
    forall r | r in AnalysisOf(u, s, c, speaker).matchedRules
      ensures IsRuleMatched(Normalize(u), r, u)
    {
    }
    forall r: Rule {
      Vetoes(u, r);
    }
  }

  /** Without any keyword of the candidate rules, the utterance has no
      effect. */
  lemma {:induction false} NoKeywordNoEffect(u: string, s: Scenario, c: CustomerType, speaker: string)
    requires forall r :: r in CandidateRules(s, c, speaker) ==> !HasKeyword(Normalize(u), r)
    ensures AnalysisOf(u, s, c, speaker) == NoEffect
  {
    if |Normalize(u)| >= 2 {
      var rules := CandidateRules(s, c, speaker);
      FilterNone(rules, r => IsRuleMatched(Normalize(u), r, u));
    }
  }

  /** A trainee utterance containing `我理解` and neither `不好意思` nor
      `考慮` matches the empathy rule. */
  lemma EmpathyRuleMatches(u: string)
    requires Contains(u, "我理解") && !Contains(u, "不好意思") && !Contains(u, "考慮")
    ensures IsRuleMatched(Normalize(u), PositiveEmpathy, u)
  {
    EmpathyKeyword(u);
    UnambiguousNotVetoed(u, PositiveEmpathy);
    EmpathyPatterns(u);
  }

  lemma EmpathyKeyword(u: string)
    requires Contains(u, "我理解")
    ensures HasKeyword(Normalize(u), PositiveEmpathy)
  {
    NormalizeKeepsText(u, "我理解");
    LowerNoUpper("我理解");
    assert PositiveEmpathy.keywords[0] == "我理解";
  }

  /** Without `不好意思` and `考慮` in the utterance no veto applies, whatever
      the rule. */
  lemma UnambiguousNotVetoed(u: string, rule: Rule)
    requires !Contains(u, "不好意思") && !Contains(u, "考慮")
    ensures !Vetoed(Normalize(u), rule, u)
  {
    NormalizeLacks(u, "不好意思");
    NormalizeLacks(u, "考慮");
    NoVetoWithoutAmbiguity(Normalize(u), rule, u);
  }

  lemma EmpathyPatterns(u: string)
    requires Contains(u, "我理解")
    ensures PatternsHold(PositiveEmpathy, u)
  {
    assert EmpathyWords[0] == "我理解";
  }

  /** Normalisation creates no occurrence of a text without ASCII letters. */
  lemma NormalizeOnlyRemoves(u: string, t: string)
    requires forall k :: 0 <= k < |t| ==> !IsAsciiLetter(t[k])
    ensures Contains(Normalize(u), t) ==> Contains(u, t)
  {
    if Contains(Normalize(u), t) {
      TrimOnlyRemoves(Lower(u), t);
      LowerOnlyRemoves(u, t);
    }
  }

  lemma NormalizeLacks(u: string, t: string)
    requires forall k :: 0 <= k < |t| ==> !IsAsciiLetter(t[k])
    requires !Contains(u, t)
    ensures !Contains(Normalize(u), t)
  {
    NormalizeOnlyRemoves(u, t);
  }

  /** In a product-marketing session, a trainee utterance containing `我理解`
      and neither `不好意思` nor `考慮` has the empathy rule among its
      matches, whatever the customer. */
  lemma EmpathyRuleSelected(u: string, c: CustomerType)
    requires Contains(u, "我理解") && !Contains(u, "不好意思") && !Contains(u, "考慮")
    ensures PositiveEmpathy in AnalysisOf(u, ProductMarketing, c, "user").matchedRules
  {
    EmpathyRuleMatches(u);
    EmpathyPassesGuard(u);
    EmpathyCandidate(c);
    MatchedCandidateSelected(u, ProductMarketing, c, "user", PositiveEmpathy);
  }

  /** An utterance containing `我理解` passes the short-input guard. */
  lemma EmpathyPassesGuard(u: string)
    requires Contains(u, "我理解")
    ensures |Normalize(u)| >= 2
  {
    NormalizeKeepsText(u, "我理解");
  }

  /** The empathy rule is a candidate for every trainee turn in product
      marketing. */
  lemma EmpathyCandidate(c: CustomerType)
    ensures PositiveEmpathy in CandidateRules(ProductMarketing, c, "user")
  {
    PositiveEmpathyForMarketing();
  }

  /** A candidate rule that matches a long enough utterance is among its
      matches. */
  lemma MatchedCandidateSelected(u: string, s: Scenario, c: CustomerType, speaker: string, r: Rule)
    requires |Normalize(u)| >= 2 && r in CandidateRules(s, c, speaker)
    requires IsRuleMatched(Normalize(u), r, u)
    ensures r in AnalysisOf(u, s, c, speaker).matchedRules
  {
  }

  /** `"我理解您的顧慮"` is such an utterance. */
  lemma EmpathyExample(c: CustomerType)
    ensures PositiveEmpathy in AnalysisOf("我理解您的顧慮", ProductMarketing, c, "user").matchedRules
  {
    var u := "我理解您的顧慮";
    ContainsPrefix(u, "我理解");
    NotContainsFirstChar(u, "不好意思");
    NotContainsFirstChar(u, "考慮");
    EmpathyRuleSelected(u, c);
  }

}
