/** Replay of a whole conversation (lib/rapport/engine.ts,
    `analyzeConversationHistory`): every turn is analysed, every turn that
    matches a rule moves the score and is recorded as an event, the score
    after each turn forms the trajectory, and events that move the score by
    five points or more are the critical moments. */
module Conversation {

  import opened Wrappers
  import opened Sequences
  import opened Rules
  import opened Scoring
  import opened Analysis

  /** One turn of the conversation: `{ role, content }`. */
  datatype Turn = Turn(role: string, content: string)

  /** `RapportEvent`, without its `timestamp`. */
  datatype RapportEvent = RapportEvent(
    speaker: string,
    utterance: string,
    matchedRule: Option<Rule>,
    scoreBefore: int,
    scoreAfter: int,
    change: int)

  /** What `analyzeConversationHistory` returns. */
  datatype History = History(
    events: seq<RapportEvent>,
    finalScore: int,
    trajectory: seq<int>,
    criticalMoments: seq<RapportEvent>)

  /** The loop state of `analyzeConversationHistory`: the events recorded,
      the current score and the trajectory so far. */
  datatype Replay = Replay(events: seq<RapportEvent>, score: int, trajectory: seq<int>)

  /** How a turn is analysed: `analyzeUtterance` with the session's
      scenario and customer type (`TurnAnalyzer`). The replay below is stated
      for any such analyser, so that its proofs do not depend on the rule
      table. */
  type Analyzer = Turn -> AnalysisResult

  /** `analyzeUtterance(turn.content, scenario, customerType, turn.role)` */
  function TurnAnalyzer(s: Scenario, c: CustomerType): Analyzer {
    (t: Turn) => Analysis.AnalysisOf(t.content, s, c, t.role)
  }

  /** The turn matches at least one rule and so is recorded. */
  predicate Triggers(t: Turn, analyze: Analyzer) {
    |analyze(t).matchedRules| > 0
  }

  /** The score after turn `t`, starting from `score`. */
  function NextScore(score: int, t: Turn, analyze: Analyzer): int {
    if Triggers(t, analyze) then NewRapportScore(score, analyze(t).rapportChange) else score
  }

  /** The event a triggering turn records when the score was `before`. */
  function EventFor(t: Turn, analyze: Analyzer, before: int): RapportEvent
    requires Triggers(t, analyze)
  {
    var a := analyze(t);
    RapportEvent(t.role, t.content, Some(a.matchedRules[0]), before,
                 NewRapportScore(before, a.rapportChange), a.rapportChange)
  }

  /** One iteration of the loop. */
  function Step(st: Replay, t: Turn, analyze: Analyzer): Replay {
    var after := NextScore(st.score, t, analyze);
    Replay(if Triggers(t, analyze) then st.events + [EventFor(t, analyze, st.score)] else st.events,
           after, st.trajectory + [after])
  }

  /** The loop state after all of `turns`. */
  function ReplayOf(turns: seq<Turn>, analyze: Analyzer, initialScore: int): Replay
    decreases |turns|
  {
    if |turns| == 0 then Replay([], initialScore, [initialScore])
    else Step(ReplayOf(turns[..|turns| - 1], analyze, initialScore), turns[|turns| - 1], analyze)
  }

  /** A critical moment: the event moved the score by five points or more. */
  predicate IsCritical(e: RapportEvent) {
    Abs(e.change) >= 5
  }

  /** The result of the replay of `turns` from `initialScore`. */
  function HistoryOf(turns: seq<Turn>, analyze: Analyzer, initialScore: int): History {
    var st := ReplayOf(turns, analyze, initialScore);
    History(st.events, st.score, st.trajectory, Filter(st.events, IsCritical))
  }

  /** `analyzeConversationHistory(turns, scenario, customerType, initialScore)`:
      one pass over the turns, pushing events and trajectory points. */
  method AnalyzeConversationHistory(turns: seq<Turn>, scenario: Scenario, customerType: CustomerType,
                                    initialScore: int := 50)
    returns (history: History)
    ensures history == HistoryOf(turns, TurnAnalyzer(scenario, customerType), initialScore)
  {
    ghost var analyze := TurnAnalyzer(scenario, customerType);
    var events: seq<RapportEvent> := [];
    var trajectory: seq<int> := [initialScore];
    var currentScore := initialScore;
    for i := 0 to |turns|
      invariant Replay(events, currentScore, trajectory) == ReplayOf(turns[..i], analyze, initialScore)
    {
      var turn := turns[i];
      assert turns[..i + 1][..i] == turns[..i];
      var analysis := AnalyzeUtterance(turn.content, scenario, customerType, turn.role);
      assert analysis == analyze(turn);
      if |analysis.matchedRules| > 0 {
        var scoreBefore := currentScore;
        currentScore := CalculateNewRapportScore(currentScore, analysis.rapportChange);
        var event := RapportEvent(turn.role, turn.content, Some(analysis.matchedRules[0]),
                                  scoreBefore, currentScore, analysis.rapportChange);
        events := events + [event];
      }
      trajectory := trajectory + [currentScore];
    }
    assert turns[..|turns|] == turns;
    var criticalMoments := Filter(events, IsCritical);
    history := History(events, currentScore, trajectory, criticalMoments);
  }

  // ---------------------------------------------------------------------
  // The trajectory

  /** The trajectory has one point before the first turn and one after each
      turn; it starts at the initial score, ends at the final score, and
      each point follows from the one before by that turn's score update. */
  lemma {:induction false} TrajectoryShape(turns: seq<Turn>, analyze: Analyzer, initialScore: int)
    ensures var st := ReplayOf(turns, analyze, initialScore);
      && |st.trajectory| == |turns| + 1
      && st.trajectory[0] == initialScore
      && st.trajectory[|turns|] == st.score
      && forall k :: 0 <= k < |turns| ==> st.trajectory[k + 1] == NextScore(st.trajectory[k], turns[k], analyze)
    decreases |turns|
  {
    if |turns| > 0 {
      var n := |turns| - 1;
      var init := turns[..n];
      TrajectoryShape(init, analyze, initialScore);
      assert forall k :: 0 <= k < n ==> init[k] == turns[k];
    }
  }

  /** From an in-range initial score, every point of the trajectory is in
      range. */
  lemma {:induction false} TrajectoryInRange(turns: seq<Turn>, analyze: Analyzer, initialScore: int)
    requires 0 <= initialScore <= 100
    ensures forall k :: 0 <= k < |ReplayOf(turns, analyze, initialScore).trajectory| ==>
              0 <= ReplayOf(turns, analyze, initialScore).trajectory[k] <= 100
    decreases |turns|
  {
    if |turns| > 0 {
      var n := |turns| - 1;
      TrajectoryInRange(turns[..n], analyze, initialScore);
      TrajectoryShape(turns[..n], analyze, initialScore);
    }
  }

  /** The analyser never lets a customer (`"assistant"`) turn raise the
      rapport, nor any other turn lower it. */
  ghost predicate SignsBySpeaker(analyze: Analyzer) {
    forall t: Turn ::
      && (t.role == "assistant" ==> analyze(t).rapportChange <= 0)
      && (t.role != "assistant" ==> analyze(t).rapportChange >= 0)
  }

  /** `analyzeUtterance` has that property, for every scenario and customer
      type: negative rules only for the customer, positive ones otherwise. */
  lemma TurnAnalyzerSigns(s: Scenario, c: CustomerType)
    ensures SignsBySpeaker(TurnAnalyzer(s, c))
  {
    forall t: Turn
      ensures t.role == "assistant" ==> TurnAnalyzer(s, c)(t).rapportChange <= 0
      ensures t.role != "assistant" ==> TurnAnalyzer(s, c)(t).rapportChange >= 0
    {
      ChangeSign(t.content, s, c, t.role);
    }
  }

  /** From an in-range score, a customer turn never raises the score and
      any other turn never lowers it. */
  lemma NextScoreDirection(score: int, t: Turn, analyze: Analyzer)
    requires 0 <= score <= 100 && SignsBySpeaker(analyze)
    ensures t.role == "assistant" ==> NextScore(score, t, analyze) <= score
    ensures t.role != "assistant" ==> NextScore(score, t, analyze) >= score
  {
    NewRapportScoreDirection(score, analyze(t).rapportChange);
  }

  /** A conversation in which the customer never speaks never lowers the
      rapport: the trajectory never decreases. */
  lemma TraineeOnlyNeverLowers(turns: seq<Turn>, analyze: Analyzer, initialScore: int)
    requires 0 <= initialScore <= 100 && SignsBySpeaker(analyze)
    requires forall k :: 0 <= k < |turns| ==> turns[k].role != "assistant"
    ensures var tr := ReplayOf(turns, analyze, initialScore).trajectory;
      |tr| == |turns| + 1 && forall k :: 0 <= k < |turns| ==> tr[k] <= tr[k + 1]
  {
    var tr := ReplayOf(turns, analyze, initialScore).trajectory;
    TrajectoryShape(turns, analyze, initialScore);
    TrajectoryInRange(turns, analyze, initialScore);
    forall k | 0 <= k < |turns| ensures tr[k] <= tr[k + 1] {
      NextScoreDirection(tr[k], turns[k], analyze);
    }
  }

  /** A conversation in which only the customer speaks never raises the
      rapport: the trajectory never increases. */
  lemma CustomerOnlyNeverRaises(turns: seq<Turn>, analyze: Analyzer, initialScore: int)
    requires 0 <= initialScore <= 100 && SignsBySpeaker(analyze)
    requires forall k :: 0 <= k < |turns| ==> turns[k].role == "assistant"
    ensures var tr := ReplayOf(turns, analyze, initialScore).trajectory;
      |tr| == |turns| + 1 && forall k :: 0 <= k < |turns| ==> tr[k + 1] <= tr[k]
  {
    var tr := ReplayOf(turns, analyze, initialScore).trajectory;
    TrajectoryShape(turns, analyze, initialScore);
    TrajectoryInRange(turns, analyze, initialScore);
    forall k | 0 <= k < |turns| ensures tr[k + 1] <= tr[k] {
      NextScoreDirection(tr[k], turns[k], analyze);
    }
  }

  // ---------------------------------------------------------------------
  // The events

  /** The turn an event was recorded for. */
  function SourceTurn(e: RapportEvent): Turn {
    Turn(e.speaker, e.utterance)
  }

  function SourceTurns(events: seq<RapportEvent>): (ts: seq<Turn>)
    ensures |ts| == |events|
    decreases |events|
  {
    if |events| == 0 then [] else SourceTurns(events[..|events| - 1]) + [SourceTurn(events[|events| - 1])]
  }

  /** The turns that match some rule, in order. */
  function TriggeringTurns(turns: seq<Turn>, analyze: Analyzer): seq<Turn> {
    Filter(turns, t => Triggers(t, analyze))
  }

  /** An event records what the analysis of its own utterance gave: the
      first matched rule, the rounded change, and the score update. */
  predicate Recorded(e: RapportEvent, analyze: Analyzer) {
    var a := analyze(SourceTurn(e));
    && |a.matchedRules| > 0
    && e.matchedRule == Some(a.matchedRules[0])
    && e.change == a.rapportChange
    && e.scoreAfter == NewRapportScore(e.scoreBefore, e.change)
  }

  /** Events are recorded exactly for the triggering turns, in order. */
  lemma {:induction false} EventsForTriggeringTurns(turns: seq<Turn>, analyze: Analyzer, initialScore: int)
    ensures SourceTurns(ReplayOf(turns, analyze, initialScore).events) == TriggeringTurns(turns, analyze)
    decreases |turns|
  {
    if |turns| > 0 {
      var n := |turns| - 1;
      var init, last := turns[..n], turns[n];
      EventsForTriggeringTurns(init, analyze, initialScore);
      var prev := ReplayOf(init, analyze, initialScore);
      assert turns == init + [last];
      FilterSnoc(init, last, t => Triggers(t, analyze));
      if Triggers(last, analyze) {
        var e := EventFor(last, analyze, prev.score);
        assert (prev.events + [e])[..|prev.events|] == prev.events;
        assert SourceTurn(e) == last;
      }
    }
  }

  /** Each event records the analysis of its own turn. */
  lemma {:induction false} EventsRecorded(turns: seq<Turn>, analyze: Analyzer, initialScore: int)
    ensures forall k :: 0 <= k < |ReplayOf(turns, analyze, initialScore).events| ==>
              Recorded(ReplayOf(turns, analyze, initialScore).events[k], analyze)
    decreases |turns|
  {
    if |turns| > 0 {
      var n := |turns| - 1;
      var init, last := turns[..n], turns[n];
      EventsRecorded(init, analyze, initialScore);
      var prev := ReplayOf(init, analyze, initialScore);
      var events := ReplayOf(turns, analyze, initialScore).events;
      if Triggers(last, analyze) {
        var e := EventFor(last, analyze, prev.score);
        assert events == prev.events + [e];
        forall k | 0 <= k < |events| ensures Recorded(events[k], analyze) {
          if k < |prev.events| {
            assert events[k] == prev.events[k];
          } else {
            assert events[k] == e && SourceTurn(e) == last;
          }
        }
      }
    }
  }

  /** The events form a chain of scores: the first starts at the initial
      score, each starts where the one before ended, and the last ends at the
      final score. Without events the final score is the initial one. */
  lemma {:induction false} EventChain(turns: seq<Turn>, analyze: Analyzer, initialScore: int)
    ensures var st := ReplayOf(turns, analyze, initialScore);
      && (|st.events| == 0 ==> st.score == initialScore)
      && (|st.events| > 0 ==>
            st.events[0].scoreBefore == initialScore && st.events[|st.events| - 1].scoreAfter == st.score)
      && (forall k :: 0 <= k < |st.events| - 1 ==> st.events[k + 1].scoreBefore == st.events[k].scoreAfter)
    decreases |turns|
  {
    if |turns| > 0 {
      var n := |turns| - 1;
      var init, last := turns[..n], turns[n];
      EventChain(init, analyze, initialScore);
    }
  }

  /** One event per triggering turn. */
  lemma EventCount(turns: seq<Turn>, analyze: Analyzer, initialScore: int)
    ensures |HistoryOf(turns, analyze, initialScore).events| == |TriggeringTurns(turns, analyze)|
    ensures |HistoryOf(turns, analyze, initialScore).events| <= |turns|
  {
    EventsForTriggeringTurns(turns, analyze, initialScore);
  }

  /** From an in-range initial score every event starts and ends in range,
      a customer event never raises the score and a trainee event never
      lowers it. */
  lemma EventDirections(turns: seq<Turn>, analyze: Analyzer, initialScore: int)
    requires 0 <= initialScore <= 100 && SignsBySpeaker(analyze)
    ensures var events := HistoryOf(turns, analyze, initialScore).events;
      forall k :: 0 <= k < |events| ==>
        && 0 <= events[k].scoreBefore <= 100 && 0 <= events[k].scoreAfter <= 100
        && (events[k].speaker == "assistant" ==>
              events[k].change <= 0 && events[k].scoreAfter <= events[k].scoreBefore)
        && (events[k].speaker != "assistant" ==>
              events[k].change >= 0 && events[k].scoreAfter >= events[k].scoreBefore)
  {
    var events := HistoryOf(turns, analyze, initialScore).events;
    EventChain(turns, analyze, initialScore);
    EventsRecorded(turns, analyze, initialScore);
    forall k | 0 <= k < |events|
      ensures 0 <= events[k].scoreBefore <= 100
    {
      if k > 0 {
        assert events[k].scoreBefore == events[k - 1].scoreAfter;
      }
    }
    forall k | 0 <= k < |events|
      ensures events[k].speaker == "assistant" ==>
                events[k].change <= 0 && events[k].scoreAfter <= events[k].scoreBefore
      ensures events[k].speaker != "assistant" ==>
                events[k].change >= 0 && events[k].scoreAfter >= events[k].scoreBefore
    {
      assert Recorded(events[k], analyze);
      assert analyze(SourceTurn(events[k])).rapportChange == events[k].change;
      NewRapportScoreDirection(events[k].scoreBefore, events[k].change);
    }
  }

  /** The critical moments are exactly the events that moved the score by
      five points or more, in order. */
  lemma CriticalMoments(turns: seq<Turn>, analyze: Analyzer, initialScore: int)
    ensures var h := HistoryOf(turns, analyze, initialScore);
      && IsSublist(h.criticalMoments, h.events)
      && (forall e :: e in h.criticalMoments <==> e in h.events && Abs(e.change) >= 5)
  {
    var events := HistoryOf(turns, analyze, initialScore).events;
    FilterSublist(events, IsCritical);
    FilterMembers(events, IsCritical);
  }

  /** In a session replayed by `analyzeUtterance`, from an in-range initial
      score: customer events never raise the score, trainee events never
      lower it. */
  lemma SessionEventDirections(turns: seq<Turn>, s: Scenario, c: CustomerType, initialScore: int)
    requires 0 <= initialScore <= 100
    ensures var events := HistoryOf(turns, TurnAnalyzer(s, c), initialScore).events;
      forall k :: 0 <= k < |events| ==>
        && (events[k].speaker == "assistant" ==> events[k].scoreAfter <= events[k].scoreBefore)
        && (events[k].speaker != "assistant" ==> events[k].scoreAfter >= events[k].scoreBefore)
  {
    TurnAnalyzerSigns(s, c);
    EventDirections(turns, TurnAnalyzer(s, c), initialScore);
  }

  /** An empty conversation keeps the initial score. */
  lemma EmptyConversation(analyze: Analyzer, initialScore: int)
    ensures HistoryOf([], analyze, initialScore) == History([], initialScore, [initialScore], [])
  {
  }

}
