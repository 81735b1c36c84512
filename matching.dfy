/** Rule matching of the rapport engine (lib/rapport/engine.ts): the
    Taiwanese-Mandarin disambiguation of `不好意思`, `考慮` and `了解`, and the
    three-layer test `isRuleMatched` (keyword gate, disambiguation vetoes,
    sentence-pattern checks). */
module Matching {

  import opened Strings
  import opened Rules

  // ---------------------------------------------------------------------
  // Disambiguation flags

  /** The result of `disambiguateTaiwaneseExpression`. */
  datatype Disambiguation = Disambiguation(
    isPoliteOpening: bool,
    isRejection: bool,
    isGenuineConsideration: bool)

  /** The referents after which `考慮` is a genuine consideration. */
  const Referents: seq<string> := ["預算", "時間", "家人", "條款", "內容", "方案"]

  /** `/考慮.{1,5}(預算|時間|家人|條款|內容|方案)/` matches with `考慮` at `i`
      and `k` arbitrary non-line-terminator characters before the referent. */
  predicate ReferentMatchAt(u: string, i: nat, k: nat) {
    && 1 <= k <= 5
    && i + 4 + k <= |u|
    && u[i..i + 2] == "考慮"
    && NoLineTerminator(u[i + 2..i + 2 + k])
    && u[i + 2 + k..i + 4 + k] in Referents
  }

  /** `/考慮.{1,5}(預算|時間|家人|條款|內容|方案)/.test(u)` */
  predicate ConcreteConsideration(u: string) {
    exists i: nat, k: nat :: i < |u| && k <= 5 && ReferentMatchAt(u, i, k)
  }

  /** `u` is `p + "考慮" + suffix` where `p` is what `^.{0,10}(再)?` can
      consume: at most ten characters, or eleven whose last is `再`, none of
      them a line terminator. */
  predicate BareConsiderationWith(u: string, suffix: string) {
    && 2 + |suffix| <= |u|
    && EndsWith(u, "考慮" + suffix)
    && var p := u[..|u| - 2 - |suffix|];
       && NoLineTerminator(p)
       && (|p| <= 10 || (|p| == 11 && p[10] == '再'))
  }

  /** `u.match(/^.{0,10}(再)?考慮(一下|看看)?$/)` succeeds. */
  predicate BareConsideration(u: string) {
    BareConsiderationWith(u, "") || BareConsiderationWith(u, "一下") || BareConsiderationWith(u, "看看")
  }

  /** `不好意思` at the start of a question: a polite opening. */
  predicate PoliteOpeningText(u: string) {
    StartsWith(u, "不好意思") && (Contains(u, "請問") || Contains(u, "想"))
  }

  /** `不好意思` used as an apology before a refusal. */
  predicate ApologeticRefusalText(u: string) {
    Contains(u, "不好意思") && !PoliteOpeningText(u) && (Contains(u, "不需要") || Contains(u, "不用"))
  }

  /** `考慮` with nothing concrete to consider: a soft refusal. */
  predicate SoftRefusalText(u: string) {
    Contains(u, "考慮") && !ConcreteConsideration(u) && BareConsideration(u)
  }

  /** A bare `了解`, ending the topic. */
  predicate TopicCloserText(u: string) {
    Contains(u, "了解") && (Trim(u) == "了解" || Trim(u) == "了解。")
  }

  /** What `disambiguateTaiwaneseExpression(u)` returns, flag by flag. */
  function DisambiguationOf(u: string): Disambiguation {
    Disambiguation(
      isPoliteOpening := PoliteOpeningText(u),
      isRejection := ApologeticRefusalText(u) || SoftRefusalText(u) || TopicCloserText(u),
      isGenuineConsideration := Contains(u, "考慮") && ConcreteConsideration(u))
  }

  /** `disambiguateTaiwaneseExpression(utterance)`: starts with every flag
      false and raises them branch by branch. */
  method DisambiguateTaiwaneseExpression(utterance: string) returns (result: Disambiguation)
    ensures result == DisambiguationOf(utterance)
    ensures result.isPoliteOpening ==> StartsWith(utterance, "不好意思")
    ensures result.isGenuineConsideration ==> Contains(utterance, "考慮")
  {
    result := Disambiguation(false, false, false);
    if Contains(utterance, "不好意思") {
      if StartsWith(utterance, "不好意思") && (Contains(utterance, "請問") || Contains(utterance, "想")) {
        result := result.(isPoliteOpening := true);
      } else if Contains(utterance, "不好意思") && (Contains(utterance, "不需要") || Contains(utterance, "不用")) {
        result := result.(isRejection := true);
      }
    }
    if Contains(utterance, "考慮") {
      if ConcreteConsideration(utterance) {
        result := result.(isGenuineConsideration := true);
      } else if BareConsideration(utterance) {
        result := result.(isRejection := true);
      }
    }
    if Contains(utterance, "了解") {
      if Trim(utterance) == "了解" || Trim(utterance) == "了解。" {
        result := result.(isRejection := true);
      }
    }
  }

  /** `考慮` is never both genuine and a soft refusal, and a polite opening
      is never an apologetic refusal: the `不好意思` and `考慮` branches are
      if/else-if chains. */
  lemma DisambiguationExclusive(u: string)
    ensures !(PoliteOpeningText(u) && ApologeticRefusalText(u))
    ensures !(DisambiguationOf(u).isGenuineConsideration && SoftRefusalText(u))
    ensures DisambiguationOf(u).isPoliteOpening && DisambiguationOf(u).isRejection ==>
              SoftRefusalText(u) || TopicCloserText(u)
  {
  }

  /** A polite opening can only come from text that starts with `不好意思`. */
  lemma PoliteOpeningStartsText(u: string)
    requires DisambiguationOf(u).isPoliteOpening
    ensures StartsWith(u, "不好意思") && Contains(u, "不好意思")
  {
    ContainsPrefix(u, "不好意思");
  }

  /** `考慮` followed by one to five characters and a referent is a genuine
      consideration, wherever it occurs. */
  lemma ReferentMakesGenuine(u: string, i: nat, k: nat)
    requires ReferentMatchAt(u, i, k)
    ensures DisambiguationOf(u).isGenuineConsideration
  {
    ContainsAt(u, "考慮", i);
  }

  /** `不好意思` with a refusal verb, without a question, `考慮` or `了解`, is
      an apologetic refusal and nothing else. */
  lemma ApologyWithoutQuestion(u: string)
    requires Contains(u, "不好意思") && (Contains(u, "不需要") || Contains(u, "不用"))
    requires !Contains(u, "請問") && !Contains(u, "想")
    requires !Contains(u, "考慮") && !Contains(u, "了解")
    ensures ApologeticRefusalText(u)
    ensures DisambiguationOf(u) == Disambiguation(false, true, false)
  {
  }

  /** `"不好意思，不需要"` is an apologetic refusal: not a polite opening and
      not a consideration. */
  lemma ApologeticRefusalExample()
    ensures ApologeticRefusalText("不好意思，不需要")
    ensures DisambiguationOf("不好意思，不需要") == Disambiguation(false, true, false)
  {
    ApologeticRefusalExampleWords();
    ApologyWithoutQuestion("不好意思，不需要");
  }

  lemma ApologeticRefusalExampleWords()
    ensures Contains("不好意思，不需要", "不好意思") && Contains("不好意思，不需要", "不需要")
    ensures !Contains("不好意思，不需要", "請問") && !Contains("不好意思，不需要", "想")
    ensures !Contains("不好意思，不需要", "考慮") && !Contains("不好意思，不需要", "了解")
  {
    var u := "不好意思，不需要";
    ContainsPrefix(u, "不好意思");
    ContainsAt(u, "不需要", 5);
    ApologeticRefusalExampleLacks("請問");
    ApologeticRefusalExampleLacks("想");
    ApologeticRefusalExampleLacks("考慮");
    ApologeticRefusalExampleLacks("了解");
  }

  lemma ApologeticRefusalExampleLacks(t: string)
    requires |t| > 0 && t[0] in {'請', '想', '考', '了'}
    ensures !Contains("不好意思，不需要", t)
  {
    NotContainsFirstChar("不好意思，不需要", t);
  }

  /** `"我再考慮一下"` is a soft refusal, and `"我要考慮一下預算"` a genuine
      consideration. */
  lemma ConsiderationExamples()
    ensures DisambiguationOf("我再考慮一下").isRejection
    ensures !DisambiguationOf("我再考慮一下").isGenuineConsideration
    ensures DisambiguationOf("我要考慮一下預算").isGenuineConsideration
  {
    SoftConsiderationExample();
    var genuine := "我要考慮一下預算";
    assert genuine[6..8] == Referents[0];
    assert ReferentMatchAt(genuine, 2, 2);
    ReferentMakesGenuine(genuine, 2, 2);
  }

  lemma SoftConsiderationExample()
    ensures Contains("我再考慮一下", "考慮")
    ensures BareConsiderationWith("我再考慮一下", "一下")
    ensures !ConcreteConsideration("我再考慮一下")
  {
    var soft := "我再考慮一下";
    ContainsAt(soft, "考慮", 2);
    assert soft[0] == '我' && soft[1] == '再';
    forall i: nat, k: nat | i < |soft| && k <= 5 ensures !ReferentMatchAt(soft, i, k) {
      if 1 <= k && i + 4 + k <= |soft| {
        assert i <= 1 && soft[i..i + 2][0] == soft[i];
      }
    }
  }

  // ---------------------------------------------------------------------
  // isRuleMatched

  /** Layer 1: some keyword, lower-cased, occurs in the normalised text. */
  predicate HasKeyword(normalized: string, rule: Rule) {
    exists k :: 0 <= k < |rule.keywords| && Contains(normalized, Lower(rule.keywords[k]))
  }

  /** Layer 2: the disambiguation of the original text vetoes the rule. */
  predicate Vetoed(normalized: string, rule: Rule, original: string) {
    var d := DisambiguationOf(original);
    || (Contains(normalized, "不好意思") && Contains(rule.intentClassification, "拒絕") && d.isPoliteOpening)
    || (Contains(normalized, "不好意思") && Contains(rule.intentClassification, "禮貌") && d.isRejection)
    || (Contains(normalized, "考慮") && d.isGenuineConsideration &&
        Contains(rule.intentClassification, "Soft Rejection"))
  }

  /** Without `不好意思` and `考慮` in the normalised text no veto applies,
      whatever the rule. */
  lemma NoVetoWithoutAmbiguity(normalized: string, rule: Rule, original: string)
    requires !Contains(normalized, "不好意思") && !Contains(normalized, "考慮")
    ensures !Vetoed(normalized, rule, original)
  {
  }

  const QuestionWords: seq<string> := ["誰", "什麼", "為什麼", "怎麼", "哪裡", "嗎"]
  const ComparisonWords: seq<string> := ["比", "更", "較", "還"]
  const NegationWords: seq<string> := ["不", "沒", "別", "甭", "免"]
  const OpenQuestionWords: seq<string> := ["您覺得", "您認為", "您的想法", "請問", "想請教", "您希望", "您需要"]
  const EmpathyWords: seq<string> := ["我理解", "我明白", "我了解", "我知道", "我感覺", "我能體會"]

  /** A question: a half- or full-width question mark, or a question word. */
  predicate IsQuestion(u: string) {
    Contains(u, "?") || Contains(u, "？") || ContainsAny(u, QuestionWords)
  }

  /** Layer 3: each recognised pattern tag of the rule holds of the original
      text. Unrecognised tags impose nothing. */
  predicate PatternsHold(rule: Rule, u: string) {
    var tags := rule.sentencePatterns;
    && ("短句" in tags ==> |u| <= 20)
    && ("反問句" in tags ==> IsQuestion(u))
    && ("比較級" in tags || "比較級句子" in tags ==> ContainsAny(u, ComparisonWords))
    && ("否定句" in tags || "拒絕" in tags || "直接否定句" in tags ==> ContainsAny(u, NegationWords))
    && ("開放式問句" in tags ==> ContainsAny(u, OpenQuestionWords))
    && ("同理心詞彙" in tags ==> ContainsAny(u, EmpathyWords))
  }

  /** `isRuleMatched(normalizedUtterance, rule, originalUtterance)`: the
      checks in the order the source makes them, each returning early. */
  function IsRuleMatched(normalized: string, rule: Rule, original: string): (matched: bool)
    ensures matched <==> HasKeyword(normalized, rule) && !Vetoed(normalized, rule, original) &&
                         PatternsHold(rule, original)
    ensures rule.sentencePatterns == [] ==>
              (matched <==> HasKeyword(normalized, rule) && !Vetoed(normalized, rule, original))
  {
    var tags := rule.sentencePatterns;
    var d := DisambiguationOf(original);
    if !HasKeyword(normalized, rule) then false
    else if Contains(normalized, "不好意思") && Contains(rule.intentClassification, "拒絕") && d.isPoliteOpening then false
    else if Contains(normalized, "不好意思") && Contains(rule.intentClassification, "禮貌") && d.isRejection then false
    else if Contains(normalized, "考慮") && d.isGenuineConsideration &&
            Contains(rule.intentClassification, "Soft Rejection") then false
    else if |tags| == 0 then true
    else if "短句" in tags && |original| > 20 then false
    else if "反問句" in tags && !IsQuestion(original) then false
    else if ("比較級" in tags || "比較級句子" in tags) && !ContainsAny(original, ComparisonWords) then false
    else if ("否定句" in tags || "拒絕" in tags || "直接否定句" in tags) && !ContainsAny(original, NegationWords) then false
    else if "開放式問句" in tags && !ContainsAny(original, OpenQuestionWords) then false
    else if "同理心詞彙" in tags && !ContainsAny(original, EmpathyWords) then false
    else true
  }

}
