/** The text summary of a session (lib/rapport/engine.ts,
    `generateRapportSummary`): a header with the initial score, the final
    score and the signed overall change, then the events that raised the
    score and the events that lowered it, each group numbered from 1. */
module Summary {

  import opened Strings
  import opened Sequences
  import opened Rules
  import opened Conversation

  /** `speaker === 'user' ? '業務員' : '客戶'` */
  function SpeakerLabel(speaker: string): string {
    if speaker == "user" then "業務員" else "客戶"
  }

  /** `utterance.substring(0, 50)`, followed by `...` when something was cut. */
  function Quote(u: string): (q: string)
    ensures |q| <= 53
    ensures |u| <= 50 ==> q == u
    ensures |u| > 50 ==> |q| == 53 && q[..50] == u[..50] && EndsWith(q, "...")
  {
    if |u| > 50 then u[..50] + "..." else u
  }

  /** `${d > 0 ? '+' : ''}${d}` */
  function SignedNumber(d: int): string {
    (if d > 0 then "+" else "") + IntToString(d)
  }

  /** The signed number starts with `+` exactly for gains and with `-`
      exactly for losses. */
  lemma SignedNumberSign(d: int)
    ensures SignedNumber(d) != []
    ensures SignedNumber(d)[0] == '+' <==> d > 0
    ensures SignedNumber(d)[0] == '-' <==> d < 0
    ensures d == 0 ==> SignedNumber(d) == "0"
  {
  }

  /** After the sign, the digits read back as the size of the change. */
  lemma SignedNumberValue(d: int)
    requires d != 0
    ensures DecimalValue(SignedNumber(d)[1..]) == (if d < 0 then -d else d)
  {
    var size := if d < 0 then -d else d;
    assert SignedNumber(d)[1..] == NatToString(size) by {
      if d > 0 {
        assert SignedNumber(d) == "+" + NatToString(d);
      } else {
        assert SignedNumber(d) == "-" + NatToString(-d);
      }
    }
    NatToStringRoundTrip(size);
  }

  predicate IsGain(e: RapportEvent) {
    e.change > 0
  }

  predicate IsLoss(e: RapportEvent) {
    e.change < 0
  }

  const NoEventsLine: string := "本次對話未偵測到顯著的客情變化事件。"

  function CountLine(n: nat): string {
    "偵測到 " + NatToString(n) + " 個客情變化事件："
  }

  /** The six header lines. */
  function HeaderLines(finalScore: int, initialScore: int): seq<string> {
    ["=== 客情管理分析 ===",
     "",
     "初始客情分數：" + IntToString(initialScore),
     "最終客情分數：" + IntToString(finalScore),
     "總體變化：" + SignedNumber(finalScore - initialScore),
     ""]
  }

  /** The first line of event number `index + 1` of a group. */
  function EventHeadLine(e: RapportEvent, index: nat): string {
    NatToString(index + 1) + ". " + SpeakerLabel(e.speaker) + "說：「" + Quote(e.utterance) + "」"
  }

  /** The rule lines of an event: its intent and, for a loss, the
      psychology behind it. */
  function RuleLines(e: RapportEvent, loss: bool): seq<string> {
    match e.matchedRule
    case None => []
    case Some(rule) =>
      [PatternLine(rule)] + (if loss then [PsychologyLine(rule)] else [])
  }

  function PatternLine(rule: Rule): string {
    "   識別模式：" + rule.intentClassification
  }

  function PsychologyLine(rule: Rule): string {
    "   心理分析：" + rule.psychologyExplanation
  }

  /** `客情變化：before → after (+change)` for a gain, `(change)` for a loss. */
  function ChangeLine(e: RapportEvent, loss: bool): string {
    "   客情變化：" + IntToString(e.scoreBefore) + " → " + IntToString(e.scoreAfter) +
    (if loss then " (" + IntToString(e.change) + ")" else " (+" + IntToString(e.change) + ")")
  }

  /** All lines of event number `index + 1` of a group, ending with a blank
      line. */
  function EventLines(e: RapportEvent, index: nat, loss: bool): (ls: seq<string>)
    ensures 3 <= |ls| <= 5
  {
    [EventHeadLine(e, index)] + RuleLines(e, loss) + [ChangeLine(e, loss), ""]
  }

  /** The lines of the events of a group, numbered from 1. */
  function GroupLines(events: seq<RapportEvent>, loss: bool): (ls: seq<string>)
    ensures 3 * |events| <= |ls| <= 5 * |events|
    decreases |events|
  {
    if |events| == 0 then []
    else GroupLines(events[..|events| - 1], loss) + EventLines(events[|events| - 1], |events| - 1, loss)
  }

  /** A group with its heading, or nothing when it is empty. */
  function Group(events: seq<RapportEvent>, loss: bool): seq<string> {
    if |events| == 0 then []
    else [(if loss then "負向事件（" else "正向事件（") + NatToString(|events|) + "次）："] +
         GroupLines(events, loss)
  }

  /** The lines `generateRapportSummary(events, finalScore, initialScore)`
      joins. */
  function SummaryLines(events: seq<RapportEvent>, finalScore: int, initialScore: int): seq<string> {
    HeaderLines(finalScore, initialScore) +
    if |events| == 0 then [NoEventsLine]
    else [CountLine(|events|), ""] + Group(Filter(events, IsGain), false) + Group(Filter(events, IsLoss), true)
  }

  lemma GroupLinesSnoc(events: seq<RapportEvent>, index: nat, loss: bool)
    requires index < |events|
    ensures GroupLines(events[..index + 1], loss) ==
            GroupLines(events[..index], loss) + EventLines(events[index], index, loss)
  {
    assert events[..index + 1][..index] == events[..index];
  }

  lemma EventLinesPushed(before: seq<string>, e: RapportEvent, index: nat, loss: bool)
    ensures before + [EventHeadLine(e, index)] + RuleLines(e, loss) + [ChangeLine(e, loss)] + [""] ==
            before + EventLines(e, index, loss)
  {
  }

  /** The `forEach` callback: pushes the lines of event number `index + 1`. */
  method PushEventLines(lines: seq<string>, event: RapportEvent, index: nat, loss: bool)
    returns (result: seq<string>)
    ensures result == lines + EventLines(event, index, loss)
  {
    result := lines + [EventHeadLine(event, index)];
    if event.matchedRule.Some? {
      result := result + [PatternLine(event.matchedRule.value)];
      if loss {
        result := result + [PsychologyLine(event.matchedRule.value)];
      }
    }
    assert result == lines + [EventHeadLine(event, index)] + RuleLines(event, loss);
    result := result + [ChangeLine(event, loss)];
    result := result + [""];
    EventLinesPushed(lines, event, index, loss);
  }

  /** The `forEach` over one group: pushes the lines of each event. */
  method AppendGroupLines(lines: seq<string>, events: seq<RapportEvent>, loss: bool)
    returns (result: seq<string>)
    ensures result == lines + GroupLines(events, loss)
  {
    result := lines;
    for index := 0 to |events|
      invariant result == lines + GroupLines(events[..index], loss)
    {
      GroupLinesSnoc(events, index, loss);
      AppendThree(lines, GroupLines(events[..index], loss), EventLines(events[index], index, loss));
      result := PushEventLines(result, events[index], index, loss);
    }
    assert events[..|events|] == events;
  }

  lemma AppendThree(a: seq<string>, b: seq<string>, c: seq<string>)
    ensures a + b + c == a + (b + c)
  {
  }

  lemma AppendFour(a: seq<string>, b: seq<string>, c: seq<string>, d: seq<string>)
    ensures a + b + c + d == a + (b + c + d)
  {
  }

  /** One group when it is not empty: its heading, then its events. */
  method PushGroup(lines: seq<string>, events: seq<RapportEvent>, loss: bool)
    returns (result: seq<string>)
    ensures result == lines + Group(events, loss)
  {
    result := lines;
    if |events| > 0 {
      var heading := (if loss then "負向事件（" else "正向事件（") + NatToString(|events|) + "次）：";
      result := result + [heading];
      result := AppendGroupLines(result, events, loss);
      AppendThree(lines, [heading], GroupLines(events, loss));
    }
  }

  /** `generateRapportSummary(events, finalScore, initialScore)` */
  method GenerateRapportSummary(events: seq<RapportEvent>, finalScore: int, initialScore: int := 50)
    returns (text: string)
    ensures text == Join(SummaryLines(events, finalScore, initialScore), "\n")
  {
    var lines: seq<string> := [];
    lines := lines + ["=== 客情管理分析 ==="];
    lines := lines + [""];
    lines := lines + ["初始客情分數：" + IntToString(initialScore)];
    lines := lines + ["最終客情分數：" + IntToString(finalScore)];
    lines := lines + ["總體變化：" + SignedNumber(finalScore - initialScore)];
    lines := lines + [""];
    assert lines == HeaderLines(finalScore, initialScore);
    if |events| == 0 {
      lines := lines + [NoEventsLine];
    } else {
      lines := lines + [CountLine(|events|)];
      lines := lines + [""];
      assert lines == HeaderLines(finalScore, initialScore) + [CountLine(|events|), ""];
      var positiveEvents := Filter(events, IsGain);
      var negativeEvents := Filter(events, IsLoss);
      lines := PushGroup(lines, positiveEvents, false);
      lines := PushGroup(lines, negativeEvents, true);
      AppendFour(HeaderLines(finalScore, initialScore), [CountLine(|events|), ""],
                 Group(positiveEvents, false), Group(negativeEvents, true));
    }
    text := Join(lines, "\n");
  }

  // ---------------------------------------------------------------------
  // Properties

  /** The header is always there; without events one line follows it,
      otherwise the count of events does. */
  lemma SummaryShape(events: seq<RapportEvent>, finalScore: int, initialScore: int)
    ensures var ls := SummaryLines(events, finalScore, initialScore);
      && |ls| >= 7
      && ls[..6] == HeaderLines(finalScore, initialScore)
      && ls[4] == "總體變化：" + SignedNumber(finalScore - initialScore)
      && (|events| == 0 <==> ls[6] == NoEventsLine)
      && (|events| == 0 ==> |ls| == 7)
      && (|events| > 0 ==> ls[6] == CountLine(|events|))
  {
    if |events| > 0 {
      assert CountLine(|events|)[0] != NoEventsLine[0];
    }
  }

  /** The gains are listed under the positive heading, the losses under the
      negative one, each in order; an event without change is in neither. */
  lemma EventsGrouped(events: seq<RapportEvent>)
    ensures IsSublist(Filter(events, IsGain), events) && IsSublist(Filter(events, IsLoss), events)
    ensures forall e :: e in Filter(events, IsGain) <==> e in events && e.change > 0
    ensures forall e :: e in Filter(events, IsLoss) <==> e in events && e.change < 0
  {
    FilterSublist(events, IsGain);
    FilterSublist(events, IsLoss);
    FilterMembers(events, IsGain);
    FilterMembers(events, IsLoss);
  }

  /** An event that did not change the score only changes the count line. */
  lemma ZeroChangeOnlyCounted(events: seq<RapportEvent>, e: RapportEvent, finalScore: int, initialScore: int)
    requires |events| > 0 && e.change == 0
    ensures SummaryLines(events + [e], finalScore, initialScore) ==
            SummaryLines(events, finalScore, initialScore)[6 := CountLine(|events| + 1)]
  {
    FilterSnoc(events, e, IsGain);
    FilterSnoc(events, e, IsLoss);
    var header := HeaderLines(finalScore, initialScore);
    var gains, losses := Group(Filter(events, IsGain), false), Group(Filter(events, IsLoss), true);
    Regroup(CountLine(|events|), "", gains, losses);
    Regroup(CountLine(|events| + 1), "", gains, losses);
    ReplaceAfter(header, CountLine(|events|), CountLine(|events| + 1), [""] + (gains + losses));
  }

  lemma Regroup(x: string, y: string, a: seq<string>, b: seq<string>)
    ensures [x, y] + a + b == [x] + ([y] + (a + b))
  {
  }

  lemma ReplaceAfter(h: seq<string>, x: string, y: string, rest: seq<string>)
    ensures (h + ([x] + rest))[|h| := y] == h + ([y] + rest)
  {
  }

  /** In a replayed conversation, trainee events are only ever listed as
      gains and customer events only ever as losses. */
  lemma {:induction false} GroupsFollowSpeakers(turns: seq<Turn>, analyze: Analyzer, initialScore: int)
    requires SignsBySpeaker(analyze)
    ensures var events := HistoryOf(turns, analyze, initialScore).events;
      && (forall e :: e in Filter(events, IsGain) ==> e.speaker != "assistant")
      && (forall e :: e in Filter(events, IsLoss) ==> e.speaker == "assistant")
  {
    var events := HistoryOf(turns, analyze, initialScore).events;
    EventsRecorded(turns, analyze, initialScore);
    EventsGrouped(events);
    forall e | e in events
      ensures e.speaker == "assistant" ==> e.change <= 0
      ensures e.speaker != "assistant" ==> e.change >= 0
    {
      var k :| 0 <= k < |events| && events[k] == e;
      assert Recorded(events[k], analyze);
      assert analyze(SourceTurn(e)).rapportChange == e.change;
    }
  }

}
