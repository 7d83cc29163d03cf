/**
  The end-of-game analysis (ViewModels/ResultViewModel.swift).

  Ratings of a finished session's accuracy and speed, the list of advice
  messages, the comparison with the stored statistics, and the
  per-challenge breakdown with its rating labels.

  The speed figure is `duration / Double(challenges.count)`, a `Double`
  division that yields an infinity or NaN for a session without
  challenges; `Speed` keeps those three outcomes so that the comparisons
  made on them behave as they do in IEEE 754 arithmetic.
 */
module Results {
  import opened Common
  import opened Gestures
  import opened Session
  import opened Stats
  import opened Service

  // ---------------------------------------------------------------------------
  // Time per challenge

  /** A `Double` quotient: a real number, an infinity, or NaN. */
  datatype Speed = Finite(value: real) | PlusInfinity | MinusInfinity | NotANumber

  /** `duration / Double(count)` with IEEE 754 semantics for a zero divisor. */
  function Quotient(duration: real, count: nat): (q: Speed)
    ensures count > 0 ==> q == Finite(duration / count as real)
    ensures count == 0 ==> (q == PlusInfinity <==> duration > 0.0)
    ensures count == 0 ==> (q == MinusInfinity <==> duration < 0.0)
    ensures count == 0 ==> (q == NotANumber <==> duration == 0.0)
  {
    if count > 0 then Finite(duration / count as real)
    else if duration > 0.0 then PlusInfinity
    else if duration < 0.0 then MinusInfinity
    else NotANumber
  }

  /** `x <= b`; false for NaN. */
  predicate AtMost(x: Speed, b: real) {
    match x
    case Finite(v) => v <= b
    case PlusInfinity => false
    case MinusInfinity => true
    case NotANumber => false
  }

  /** `x < b`; false for NaN. */
  predicate Below(x: Speed, b: real) {
    match x
    case Finite(v) => v < b
    case PlusInfinity => false
    case MinusInfinity => true
    case NotANumber => false
  }

  /** `x > b`; false for NaN. */
  predicate Above(x: Speed, b: real) {
    match x
    case Finite(v) => v > b
    case PlusInfinity => true
    case MinusInfinity => false
    case NotANumber => false
  }

  /** `averageTimePerChallenge`. */
  function TimePerChallenge(s: GameSession, now: real): Speed {
    Quotient(Duration(s, now), |s.challenges|)
  }

  // ---------------------------------------------------------------------------
  // Ratings

  datatype AccuracyRating = Excellent | Good | Average | NeedsImprovement

  datatype SpeedRating = Fast | Moderate | Slow

  /** The accuracy bands: from 0.9, from 0.7, from 0.5, and below. */
  function RateAccuracy(accuracy: real): (r: AccuracyRating)
    ensures r == Excellent <==> accuracy >= 0.9
    ensures r == Good <==> 0.7 <= accuracy < 0.9
    ensures r == Average <==> 0.5 <= accuracy < 0.7
    ensures r == NeedsImprovement <==> accuracy < 0.5
  {
    if accuracy >= 0.9 then Excellent
    else if accuracy >= 0.7 then Good
    else if accuracy >= 0.5 then Average
    else NeedsImprovement
  }

  /** The position of an accuracy rating, worst first. */
  function AccuracyRank(r: AccuracyRating): nat {
    match r
    case NeedsImprovement => 0
    case Average => 1
    case Good => 2
    case Excellent => 3
  }

  /** A more accurate session never gets a worse accuracy rating. */
  lemma RateAccuracyMonotonic(a1: real, a2: real)
    requires a1 <= a2
    ensures AccuracyRank(RateAccuracy(a1)) <= AccuracyRank(RateAccuracy(a2))
  {
  }

  /** The speed bands: up to 3 s per challenge, up to 5 s, and slower (NaN counts as slow). */
  function RateSpeed(perChallenge: Speed): (r: SpeedRating)
    ensures r == Fast <==> AtMost(perChallenge, 3.0)
    ensures r == Moderate <==> !AtMost(perChallenge, 3.0) && AtMost(perChallenge, 5.0)
    ensures r == Slow <==> !AtMost(perChallenge, 5.0)
  {
    if AtMost(perChallenge, 3.0) then Fast
    else if AtMost(perChallenge, 5.0) then Moderate
    else Slow
  }

  /** With challenges, the speed rating compares the whole duration with 3 s and 5 s per challenge. */
  lemma RateSpeedByDuration(duration: real, count: nat)
    requires count > 0
    ensures RateSpeed(Quotient(duration, count)) == Fast <==> duration <= 3.0 * count as real
    ensures RateSpeed(Quotient(duration, count)) == Slow <==> duration > 5.0 * count as real
  {
    DivideCompare(duration, count as real, 3.0);
    DivideCompare(duration, count as real, 5.0);
  }

  /** For a positive divisor, `d / n <= b` exactly when `d <= b * n`. */
  lemma DivideCompare(d: real, n: real, b: real)
    requires n > 0.0
    ensures d / n <= b <==> d <= b * n
  {
    var q := d / n;
    assert d == q * n;
    assert b * n - q * n == (b - q) * n;
    if q <= b {
      assert (b - q) * n >= 0.0;
    } else {
      assert (q - b) * n > 0.0;
    }
  }

  /**
    Without challenges the quotient is an infinity or NaN: only a negative
    duration (minus infinity) rates fast, everything else rates slow.
   */
  lemma RateSpeedWithoutChallenges(duration: real)
    ensures RateSpeed(Quotient(duration, 0)) == (if duration < 0.0 then Fast else Slow)
  {
  }

  // ---------------------------------------------------------------------------
  // Recommendations

  const AccuracyTips: seq<string> := ["Focus on accuracy over speed", "Take time to identify the correct gesture"]
  const SpeedTips: seq<string> := ["Try to respond faster to challenges", "Practice gesture recognition"]
  const ExcellenceTips: seq<string> :=
    ["Excellent performance! Try a higher level", "Challenge yourself with more complex gestures"]
  const LevelTip: string := "Keep practicing to unlock new gesture types"
  const FallbackTips: seq<string> := ["Great job! Keep up the good work", "Try different gesture combinations"]

  predicate AccuracyRule(accuracy: real) { accuracy < 0.7 }
  predicate SpeedRule(speed: Speed) { Above(speed, 5.0) }
  predicate ExcellenceRule(accuracy: real, speed: Speed) { accuracy > 0.9 && Below(speed, 3.0) }
  predicate LevelRule(level: int) { level < 5 }

  predicate AnyRule(accuracy: real, speed: Speed, level: int) {
    AccuracyRule(accuracy) || SpeedRule(speed) || ExcellenceRule(accuracy, speed) || LevelRule(level)
  }

  /** The messages of the rules that hold, in the order the rules are checked. */
  function RuleTips(accuracy: real, speed: Speed, level: int): seq<string> {
    (if AccuracyRule(accuracy) then AccuracyTips else [])
    + (if SpeedRule(speed) then SpeedTips else [])
    + (if ExcellenceRule(accuracy, speed) then ExcellenceTips else [])
    + (if LevelRule(level) then [LevelTip] else [])
  }

  /** The advice list: the rules' messages, or the encouraging pair when no rule holds. */
  function Recommendations(accuracy: real, speed: Speed, level: int): (r: seq<string>)
    ensures |r| > 0
    ensures AnyRule(accuracy, speed, level) ==> r == RuleTips(accuracy, speed, level)
    ensures !AnyRule(accuracy, speed, level) ==> r == FallbackTips
  {
    var tips := RuleTips(accuracy, speed, level);
    if tips == [] then FallbackTips else tips
  }

  /** `generateRecommendations(accuracy:speed:level:)`: successive appends under the rules, then the fallback. */
  method GenerateRecommendations(accuracy: real, speed: Speed, level: int) returns (recommendations: seq<string>)
    ensures recommendations == Recommendations(accuracy, speed, level)
  {
    recommendations := [];
    if accuracy < 0.7 {
      recommendations := recommendations + ["Focus on accuracy over speed"];
      recommendations := recommendations + ["Take time to identify the correct gesture"];
    }
    assert recommendations == if AccuracyRule(accuracy) then AccuracyTips else [];
    if Above(speed, 5.0) {
      recommendations := recommendations + ["Try to respond faster to challenges"];
      recommendations := recommendations + ["Practice gesture recognition"];
    }
    ghost var upToSpeed := (if AccuracyRule(accuracy) then AccuracyTips else [])
      + (if SpeedRule(speed) then SpeedTips else []);
    assert recommendations == upToSpeed;
    if accuracy > 0.9 && Below(speed, 3.0) {
      recommendations := recommendations + ["Excellent performance! Try a higher level"];
      recommendations := recommendations + ["Challenge yourself with more complex gestures"];
    }
    ghost var upToExcellence := upToSpeed + (if ExcellenceRule(accuracy, speed) then ExcellenceTips else []);
    assert recommendations == upToExcellence;
    if level < 5 {
      recommendations := recommendations + ["Keep practicing to unlock new gesture types"];
    }
    assert recommendations == RuleTips(accuracy, speed, level);
    if recommendations == [] {
      recommendations := recommendations + ["Great job! Keep up the good work"];
      recommendations := recommendations + ["Try different gesture combinations"];
    }
  }

  /**
    Each message appears exactly when its rule holds, and the encouraging
    pair appears exactly when none does; the list holds two messages per
    pair rule plus one for the level rule.
   */
  lemma RecommendationContents(accuracy: real, speed: Speed, level: int)
    ensures var r := Recommendations(accuracy, speed, level);
      && (AccuracyTips[0] in r <==> AccuracyRule(accuracy))
      && (SpeedTips[0] in r <==> SpeedRule(speed))
      && (ExcellenceTips[0] in r <==> ExcellenceRule(accuracy, speed))
      && (LevelTip in r <==> LevelRule(level))
      && (FallbackTips[0] in r <==> !AnyRule(accuracy, speed, level))
  {
    var a := if AccuracyRule(accuracy) then AccuracyTips else [];
    var s := if SpeedRule(speed) then SpeedTips else [];
    var e := if ExcellenceRule(accuracy, speed) then ExcellenceTips else [];
    var l := if LevelRule(level) then [LevelTip] else [];
    var tips := RuleTips(accuracy, speed, level);
    assert tips == a + s + e + l;
    forall x | x in tips
      ensures x in a || x in s || x in e || x in l
    {
    }
    assert AccuracyTips[0] in tips <==> AccuracyTips[0] in a;
    assert SpeedTips[0] in tips <==> SpeedTips[0] in s;
    assert ExcellenceTips[0] in tips <==> ExcellenceTips[0] in e;
    assert LevelTip in tips <==> LevelTip in l;
    assert FallbackTips[0] !in tips;
  }

  /** Advice on accuracy and praise for it never come together. */
  lemma AccuracyAdviceExcludesPraise(accuracy: real, speed: Speed)
    ensures !(AccuracyRule(accuracy) && ExcellenceRule(accuracy, speed))
    ensures !(SpeedRule(speed) && ExcellenceRule(accuracy, speed))
  {
  }

  // ---------------------------------------------------------------------------
  // Comparison with the stored statistics

  datatype PerformanceAnalysis = PerformanceAnalysis(
    isPersonalBest: bool,
    scoreImprovement: bool,
    accuracyRating: AccuracyRating,
    speedRating: SpeedRating,
    recommendations: seq<string>,
    nextRecommendedLevel: int)

  /** `Int(averageScore)`: the mean score per session truncated, 0 before the first session. */
  function AverageScore(p: PlayerStats): (avg: int)
    ensures p.totalSessions == 0 ==> avg == 0
    ensures p.totalSessions > 0 && p.totalScore >= 0 ==>
      avg * p.totalSessions <= p.totalScore < (avg + 1) * p.totalSessions
  {
    if p.totalSessions > 0 then
      var avg := Trunc(p.totalScore as real / p.totalSessions as real);
      TruncatedMean(p.totalScore, p.totalSessions);
      avg
    else 0
  }

  /** The truncated quotient of a non-negative total brackets the total between two multiples. */
  lemma TruncatedMean(total: int, n: nat)
    requires n > 0
    ensures var avg := Trunc(total as real / n as real);
      total >= 0 ==> avg * n <= total < (avg + 1) * n
  {
    if total >= 0 {
      ScaleBounds(Trunc(total as real / n as real), total, n);
    }
  }

  /** Multiplying `a <= t / n < a + 1` through by a positive `n`. */
  lemma ScaleBounds(a: int, t: int, n: int)
    requires n > 0 && a as real <= t as real / n as real < a as real + 1.0
    ensures a * n <= t < a * n + n
  {
    var nr := n as real;
    var x := t as real / nr;
    var ar := a as real;
    RealProduct(a, n);
    RealProduct(a + 1, n);
    MultiplyBounds(ar, x, nr);
    calc {
      t as real;
      == x * nr;
      < (ar + 1.0) * nr;
      == (a + 1) as real * nr;
      == ((a + 1) * n) as real;
    }
    assert (a + 1) * n == a * n + n;
  }

  /** Multiplying `a <= x < a + 1` through by a positive `n`. */
  lemma MultiplyBounds(a: real, x: real, n: real)
    requires n > 0.0 && a <= x < a + 1.0
    ensures a * n <= x * n < (a + 1.0) * n
  {
    assert (x - a) * n >= 0.0;
    assert (a + 1.0 - x) * n > 0.0;
  }

  /** Conversion to a real commutes with the product. */
  lemma RealProduct(a: int, n: int)
    ensures (a * n) as real == a as real * n as real
  {
  }

  /** Multiplying both sides of `a <= b` by the same count. */
  lemma {:induction false} MultiplyMonotone(a: int, b: int, n: nat)
    requires a <= b
    ensures a * n <= b * n
  {
    if n > 0 {
      MultiplyMonotone(a, b, n - 1);
      assert a * n == a * (n - 1) + a;
      assert b * n == b * (n - 1) + b;
    }
  }

  /**
    With a non-negative total, beating the truncated mean is the same as
    beating the exact mean: `score > Int(total / sessions)` holds exactly when
    `score * sessions > total`.
   */
  lemma BeatsAverageExactly(p: PlayerStats, score: int)
    requires p.totalSessions > 0 && p.totalScore >= 0
    ensures score > AverageScore(p) <==> score * p.totalSessions > p.totalScore
  {
    var avg := AverageScore(p);
    var n := p.totalSessions;
    if score > avg {
      MultiplyMonotone(avg + 1, score, n);
    } else {
      MultiplyMonotone(score, avg, n);
    }
  }

  // ---------------------------------------------------------------------------
  // Per-challenge breakdown

  datatype ChallengeResult = ChallengeResult(
    challengeNumber: int,
    gestureType: GestureType,
    isCompleted: bool,
    completionTime: real,
    accuracy: real,
    timeLimit: real,
    targetCount: int)

  /** `getChallengeBreakdown(for:)`: one result per challenge, numbered from 1, missing data read as 0. */
  function ChallengeBreakdown(s: GameSession): (results: seq<ChallengeResult>)
    ensures |results| == |s.challenges|
    ensures forall i :: 0 <= i < |results| ==>
      var c := s.challenges[i];
      && results[i].challengeNumber == i + 1
      && results[i].gestureType == c.gestureType
      && results[i].isCompleted == c.isCompleted
      && results[i].completionTime == (if c.completionTime.Some? then c.completionTime.value else 0.0)
      && results[i].accuracy == (if c.accuracy.Some? then c.accuracy.value else 0.0)
      && results[i].timeLimit == c.timeLimit
      && results[i].targetCount == c.targetCount
  {
    seq(|s.challenges|, i requires 0 <= i < |s.challenges| =>
      var c := s.challenges[i];
      ChallengeResult(i + 1, c.gestureType, c.isCompleted,
        match c.completionTime case Some(t) => t case None => 0.0,
        match c.accuracy case Some(a) => a case None => 0.0,
        c.timeLimit, c.targetCount))
  }

  /** `performanceRating`: the label of one challenge result. */
  function PerformanceRating(r: ChallengeResult): (rating: string)
    ensures rating == "Incomplete" <==> !r.isCompleted
    ensures rating == "Perfect" <==> r.isCompleted && r.accuracy >= 1.0 && r.completionTime <= r.timeLimit * 0.5
    ensures rating == "Excellent" <==>
      && r.isCompleted && r.accuracy >= 0.8 && r.completionTime <= r.timeLimit * 0.7
      && !(r.accuracy >= 1.0 && r.completionTime <= r.timeLimit * 0.5)
    ensures rating == "Good" <==>
      && r.isCompleted && r.accuracy >= 0.6
      && !(r.accuracy >= 1.0 && r.completionTime <= r.timeLimit * 0.5)
      && !(r.accuracy >= 0.8 && r.completionTime <= r.timeLimit * 0.7)
    ensures rating == "Needs Practice" <==> r.isCompleted && r.accuracy < 0.6
  {
    if !r.isCompleted then "Incomplete"
    else if r.accuracy >= 1.0 && r.completionTime <= r.timeLimit * 0.5 then "Perfect"
    else if r.accuracy >= 0.8 && r.completionTime <= r.timeLimit * 0.7 then "Excellent"
    else if r.accuracy >= 0.6 then "Good"
    else "Needs Practice"
  }

  /**
    In a session the game produced, the breakdown labels exactly the
    challenges not yet reached "Incomplete".
   */
  lemma BreakdownIncompleteExactlyAhead(s: GameSession, i: nat)
    requires SessionInv(s) && i < |s.challenges|
    ensures PerformanceRating(ChallengeBreakdown(s)[i]) == "Incomplete" <==> i >= s.currentChallengeIndex
  {
    assert ChallengeInv(s.challenges[i], i < s.currentChallengeIndex);
  }

  /** A challenge finished at full accuracy is never rated "Needs Practice" nor "Incomplete". */
  lemma FullAccuracyRating(r: ChallengeResult)
    requires r.isCompleted && r.accuracy == 1.0
    ensures PerformanceRating(r) in {"Perfect", "Excellent", "Good"}
  {
  }

  // ---------------------------------------------------------------------------
  // The view model

  class ResultViewModel {
    /** The shared statistics store (`UtilityService.shared`). */
    const utilityService: UtilityService

    constructor (service: UtilityService)
      ensures utilityService == service
    {
      utilityService := service;
    }

    /**
      `getPerformanceAnalysis(for:)`: a personal best means strictly above the
      best score; an improvement means strictly above the truncated mean
      score; the ratings and advice come from the session's accuracy and time
      per challenge; the next level is the store's recommendation.
     */
    method GetPerformanceAnalysis(session: GameSession, now: real) returns (analysis: PerformanceAnalysis)
      requires utilityService.Valid()
      ensures analysis.isPersonalBest <==> session.score > utilityService.playerStats.bestScore
      ensures analysis.scoreImprovement <==> session.score > AverageScore(utilityService.playerStats)
      ensures utilityService.playerStats.totalSessions > 0 ==>
        (analysis.scoreImprovement <==>
          session.score * utilityService.playerStats.totalSessions > utilityService.playerStats.totalScore)
      ensures analysis.accuracyRating == RateAccuracy(Accuracy(session))
      ensures analysis.speedRating == RateSpeed(TimePerChallenge(session, now))
      ensures analysis.recommendations == Recommendations(Accuracy(session), TimePerChallenge(session, now), session.level)
      ensures analysis.nextRecommendedLevel == utilityService.RecommendedLevel()
      ensures analysis.nextRecommendedLevel >= 1
    {
      var playerStats := utilityService.playerStats;
      var isPersonalBest := session.score > playerStats.bestScore;
      var scoreImprovement := session.score > AverageScore(playerStats);
      if playerStats.totalSessions > 0 {
        BeatsAverageExactly(playerStats, session.score);
      }
      var accuracy := Accuracy(session);
      var perChallenge := TimePerChallenge(session, now);
      var recommendations := GenerateRecommendations(accuracy, perChallenge, session.level);
      analysis := PerformanceAnalysis(
        isPersonalBest, scoreImprovement, RateAccuracy(accuracy), RateSpeed(perChallenge),
        recommendations, utilityService.RecommendedLevel());
    }
  }
}
