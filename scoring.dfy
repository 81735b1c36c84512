/** Rapport scores (lib/rapport/engine.ts): the damped, clamped score update
    `calculateNewRapportScore`, the status bands of `getRapportStatus` and
    the seed scores of `getInitialRapportScore`. Decimal factors are carried
    in tenths, so every quantity here is an exact integer. */
module Scoring {

  import opened Rules

  /** `Math.round(t / 10)`: JavaScript rounds halves upward, `floor(x + 0.5)`. */
  function RoundTenths(t: int): (r: int)
    ensures 10 * r - 5 <= t < 10 * r + 5
  {
    (t + 5) / 10
  }

  /** `Math.round` is the only integer within half a unit: rounding is
      monotone, and integers are kept. */
  lemma RoundTenthsMonotone(a: int, b: int)
    requires a <= b
    ensures RoundTenths(a) <= RoundTenths(b)
  {
  }

  lemma RoundTenthsExact(n: int)
    ensures RoundTenths(10 * n) == n
  {
  }

  /** Halves round toward positive infinity: `Math.round(-4.5) == -4`,
      `Math.round(2.5) == 3`. */
  lemma RoundHalfUp()
    ensures RoundTenths(-45) == -4 && RoundTenths(25) == 3 && RoundTenths(-46) == -5
  {
  }

  /** `Math.max(0, Math.min(100, x))` */
  function Clamp(x: int): (r: int)
    ensures 0 <= r <= 100
    ensures 0 <= x <= 100 ==> r == x
    ensures x < 0 ==> r == 0
    ensures x > 100 ==> r == 100
  {
    if x < 0 then 0 else if x > 100 then 100 else x
  }

  /** The factor, in tenths, that the boundary regime applies to `change`:
      gains at low scores are cut to 0.7, gains and losses at high scores to
      0.8, losses at low scores amplified to 1.2; otherwise 1. */
  function RegimeFactorTenths(currentScore: int, change: int): (f: nat)
    ensures 7 <= f <= 12
    ensures f != 10 <==> change != 0 && (currentScore < 30 || currentScore > 70)
  {
    if change > 0 && currentScore < 30 then 7
    else if change > 0 && currentScore > 70 then 8
    else if change < 0 && currentScore > 70 then 8
    else if change < 0 && currentScore < 30 then 12
    else 10
  }

  /** The score `calculateNewRapportScore(currentScore, change)` returns. */
  function NewRapportScore(currentScore: int, change: int): (r: int)
    ensures 0 <= r <= 100
  {
    Clamp(RoundTenths(10 * currentScore + change * RegimeFactorTenths(currentScore, change)))
  }

  /** `calculateNewRapportScore(currentScore, change)`: the undamped sum,
      replaced by the damped one in the four boundary regimes, then rounded
      and clamped. */
  method CalculateNewRapportScore(currentScore: int, change: int) returns (score: int)
    ensures score == NewRapportScore(currentScore, change)
    ensures 0 <= score <= 100
  {
    var newScoreTenths := 10 * currentScore + 10 * change;
    if change > 0 && currentScore < 30 {
      newScoreTenths := 10 * currentScore + change * 7;
    } else if change > 0 && currentScore > 70 {
      newScoreTenths := 10 * currentScore + change * 8;
    } else if change < 0 && currentScore > 70 {
      newScoreTenths := 10 * currentScore + change * 8;
    } else if change < 0 && currentScore < 30 {
      newScoreTenths := 10 * currentScore + change * 12;
    }
    score := Clamp(RoundTenths(newScoreTenths));
  }

  /** Between 30 and 70 inclusive, and whenever the change is zero, the change
      is applied as is (up to clamping). */
  lemma UndampedInMiddle(currentScore: int, change: int)
    requires (30 <= currentScore <= 70) || change == 0
    ensures NewRapportScore(currentScore, change) == Clamp(currentScore + change)
  {
    assert RoundTenths(10 * (currentScore + change)) == currentScore + change;
  }

  /** The worked examples: (20, +10) gives 27, (20, -10) gives 8,
      (80, -10) gives 72, (80, +10) gives 88; exactly at the bounds the change
      is undamped. */
  lemma WorkedExamples()
    ensures NewRapportScore(20, 10) == 27
    ensures NewRapportScore(20, -10) == 8
    ensures NewRapportScore(80, -10) == 72
    ensures NewRapportScore(80, 10) == 88
    ensures NewRapportScore(30, 10) == 40 && NewRapportScore(70, -10) == 60
    ensures NewRapportScore(95, 10) == 100 && NewRapportScore(5, -10) == 0
  {
  }

  /** A larger change never gives a lower score. */
  lemma NewRapportScoreMonotone(currentScore: int, c1: int, c2: int)
    requires c1 <= c2
    ensures NewRapportScore(currentScore, c1) <= NewRapportScore(currentScore, c2)
  {
    var t1 := 10 * currentScore + c1 * RegimeFactorTenths(currentScore, c1);
    var t2 := 10 * currentScore + c2 * RegimeFactorTenths(currentScore, c2);
    assert c1 * RegimeFactorTenths(currentScore, c1) <= c2 * RegimeFactorTenths(currentScore, c2) by {
      if c1 < 0 && c2 > 0 {
      } else if c1 >= 0 {
        assert RegimeFactorTenths(currentScore, c1) <= RegimeFactorTenths(currentScore, c2) || c1 == 0;
      } else {
        assert RegimeFactorTenths(currentScore, c1) == RegimeFactorTenths(currentScore, c2) || c2 == 0;
      }
    }
    RoundTenthsMonotone(t1, t2);
  }

  /** From an in-range score, a gain never lowers the score, a loss never
      raises it, and no change keeps it. */
  lemma NewRapportScoreDirection(currentScore: int, change: int)
    requires 0 <= currentScore <= 100
    ensures change > 0 ==> NewRapportScore(currentScore, change) >= currentScore
    ensures change < 0 ==> NewRapportScore(currentScore, change) <= currentScore
    ensures change == 0 ==> NewRapportScore(currentScore, change) == currentScore
  {
    UndampedInMiddle(currentScore, 0);
    if change > 0 {
      NewRapportScoreMonotone(currentScore, 0, change);
    } else if change < 0 {
      NewRapportScoreMonotone(currentScore, change, 0);
    }
  }

  /** From an in-range score, a boundary regime moves the score at most its
      factor times the change (up to rounding). */
  lemma DampingBounds(currentScore: int, change: int)
    requires 0 <= currentScore <= 100
    ensures currentScore < 30 && change > 0 ==>
              10 * NewRapportScore(currentScore, change) <= 10 * currentScore + 7 * change + 5
    ensures currentScore > 70 && change > 0 ==>
              10 * NewRapportScore(currentScore, change) <= 10 * currentScore + 8 * change + 5
    ensures currentScore > 70 && change < 0 ==>
              10 * currentScore + 8 * change - 5 <= 10 * NewRapportScore(currentScore, change)
    ensures currentScore < 30 && change < 0 ==>
              10 * currentScore + 12 * change - 5 <= 10 * NewRapportScore(currentScore, change)
  {
  }

  // ---------------------------------------------------------------------
  // Status bands

  datatype Level = Danger | Warning | Good

  /** `RapportStatus`: the band of a score and the display texts for it
      (`labelText` is the source's `label`). */
  datatype RapportStatus = RapportStatus(
    score: int,
    level: Level,
    color: string,
    labelText: string,
    description: string,
    advice: string)

  const DangerStatusTexts: (string, string, string, string) :=
    ("#ef4444", "關係危險", "客戶防備心很重，隨時可能中斷對話", "立即調整策略，避免推銷話術，專注建立信任")
  const WarningStatusTexts: (string, string, string, string) :=
    ("#f59e0b", "關係普通", "客戶願意聽但還沒有信任", "使用開放式問題，展現同理心，逐步建立連結")
  const GoodStatusTexts: (string, string, string, string) :=
    ("#10b981", "關係良好", "客戶對你有信任感，願意深入交流", "保持當前節奏，可以適度引入產品討論")

  function WithTexts(score: int, level: Level, t: (string, string, string, string)): RapportStatus {
    RapportStatus(score, level, t.0, t.1, t.2, t.3)
  }

  /** `getRapportStatus(score)`: danger below 30, warning below 70, good from
      70 on, each with its own colour and texts. */
  function GetRapportStatus(score: int): (st: RapportStatus)
    ensures st.score == score
    ensures st.level == Danger <==> score < 30
    ensures st.level == Warning <==> 30 <= score < 70
    ensures st.level == Good <==> 70 <= score
    ensures st.color == (match st.level
                         case Danger => DangerStatusTexts.0
                         case Warning => WarningStatusTexts.0
                         case Good => GoodStatusTexts.0)
  {
    if score < 30 then WithTexts(score, Danger, DangerStatusTexts)
    else if score < 70 then WithTexts(score, Warning, WarningStatusTexts)
    else WithTexts(score, Good, GoodStatusTexts)
  }

  /** The band edges: 29 is danger, 30 and 69 warning, 70 good. */
  lemma StatusBandEdges()
    ensures GetRapportStatus(29).level == Danger
    ensures GetRapportStatus(30).level == Warning && GetRapportStatus(69).level == Warning
    ensures GetRapportStatus(70).level == Good
  {
  }

  /** The bands are ordered: a higher score is never in a lower band. */
  function LevelRank(l: Level): nat {
    match l
    case Danger => 0
    case Warning => 1
    case Good => 2
  }

  lemma StatusMonotone(a: int, b: int)
    requires a <= b
    ensures LevelRank(GetRapportStatus(a).level) <= LevelRank(GetRapportStatus(b).level)
  {
  }

  /** Throughout the warning band the score update applies the change
      undamped. */
  lemma WarningBandUndamped(score: int, change: int)
    requires GetRapportStatus(score).level == Warning
    ensures RegimeFactorTenths(score, change) == 10
  {
  }

  // ---------------------------------------------------------------------
  // Seed scores

  /** `getInitialRapportScore(customerType)` */
  function GetInitialRapportScore(customerType: CustomerType): (score: int)
    ensures 40 <= score <= 50
    ensures score == 50 <==> customerType == Neutral
    ensures score == 40 <==> customerType == Skeptical
    ensures score == 45 <==> customerType == Avoidant || customerType == HasInsurance
    ensures GetRapportStatus(score).level == Warning
  {
    match customerType
    case Neutral => 50
    case Avoidant => 45
    case Skeptical => 40
    case HasInsurance => 45
  }

  /** Avoidant and insured customers start level, between the sceptical and
      the neutral customer. */
  lemma InitialScoresOrdered()
    ensures GetInitialRapportScore(Skeptical) < GetInitialRapportScore(Avoidant)
    ensures GetInitialRapportScore(Avoidant) == GetInitialRapportScore(HasInsurance)
    ensures GetInitialRapportScore(HasInsurance) < GetInitialRapportScore(Neutral)
  {
  }

}
