/**
  A play session (the `GameSession` struct of Models/GameSession.swift).

  A session owns an ordered list of challenges, walks through them with an
  index, accumulates a score, counts gestures, and is completed once the
  index has passed the last challenge. Swift structs are values: each
  `mutating func` is a function from the old session to the new one. The
  clock (`Date()`) is the parameter `now`, in seconds.
 */
module Session {
  import opened Common
  import opened Gestures

  datatype GameSession = GameSession(
    startTime: real,
    endTime: Option<real>,
    challenges: seq<Challenge>,
    currentChallengeIndex: nat,
    score: int,
    level: int,
    totalGestures: nat,
    correctGestures: nat,
    isCompleted: bool)

  // ---------------------------------------------------------------------------
  // Challenge generation

  /** `min(5 + level, 15)`: how many challenges a level gets. */
  function ChallengeCount(level: int): (n: int)
    ensures n <= 15
    ensures level >= 1 ==> 6 <= n
    ensures level >= 10 ==> n == 15
  {
    Min(5 + level, 15)
  }

  /** `max(1, level + i / 2)`: repetitions asked by the challenge at index `i`. */
  function TargetCount(level: int, i: nat): (t: int)
    ensures t >= 1
    ensures t >= level
  {
    Max(1, level + i / 2)
  }

  /** `max(3.0, 10.0 - Double(level) * 0.5)`: seconds allowed per challenge. */
  function TimeLimitFor(level: int): (limit: real)
    ensures limit >= 3.0
    ensures level <= 14 ==> limit == 10.0 - level as real * 0.5
    ensures level >= 14 ==> limit == 3.0
  {
    MaxReal(3.0, 10.0 - level as real * 0.5)
  }

  /** The gesture a challenge may carry: one from the eligible pool, or `.tap` when the pool is empty. */
  predicate AllowedGesture(level: int, g: GestureType) {
    if |Eligible(level)| > 0 then g in Eligible(level) else g == Tap
  }

  /** What the generator promises about the challenge at index `i`. */
  predicate GeneratedAt(level: int, i: nat, c: Challenge) {
    && AllowedGesture(level, c.gestureType)
    && c == NewChallenge(c.gestureType, TargetCount(level, i), TimeLimitFor(level), level)
  }

  predicate Generated(level: int, cs: seq<Challenge>) {
    && |cs| == ChallengeCount(level)
    && forall i :: 0 <= i < |cs| ==> GeneratedAt(level, i, cs[i])
  }

  /**
    `GameSession.generateChallenges(for:)`. Each gesture is drawn with
    `randomElement()`, modelled as a nondeterministic choice from the eligible
    pool. Swift's `0..<n` traps when `n < 0`, hence the precondition.
   */
  method GenerateChallenges(level: int) returns (cs: seq<Challenge>)
    requires level >= -5
    ensures Generated(level, cs)
  {
    cs := [];
    var challengeCount := Min(5 + level, 15);
    for i := 0 to challengeCount
      invariant |cs| == i
      invariant forall j :: 0 <= j < i ==> GeneratedAt(level, j, cs[j])
    {
      var availableGestures := Eligible(level);
      var gestureType: GestureType;
      if |availableGestures| > 0 {
        assert availableGestures[0] in availableGestures;
        gestureType :| gestureType in availableGestures;
      } else {
        gestureType := Tap;
      }
      var targetCount := Max(1, level + i / 2);
      var timeLimit := MaxReal(3.0, 10.0 - level as real * 0.5);
      cs := cs + [NewChallenge(gestureType, targetCount, timeLimit, level)];
    }
  }

  /** From level 1 on, every generated gesture is within the level's difficulty cap. */
  lemma GeneratedWithinCap(level: int, cs: seq<Challenge>, i: nat)
    requires level >= 1 && Generated(level, cs) && i < |cs|
    ensures Difficulty(cs[i].gestureType) <= DifficultyCap(level)
    ensures 6 <= |cs| <= 15
    ensures cs[i].targetCount == Max(1, level + i / 2) && cs[i].timeLimit == TimeLimitFor(level)
  {
    EligibleNonEmpty(level);
    assert GeneratedAt(level, i, cs[i]);
  }

  /** Below level 1 the pool is empty and every challenge falls back to `.tap`. */
  lemma GeneratedBelowOneIsTap(level: int, cs: seq<Challenge>, i: nat)
    requires level < 1 && Generated(level, cs) && i < |cs|
    ensures cs[i].gestureType == Tap
  {
    EligibleEmptyBelowOne(level);
    assert GeneratedAt(level, i, cs[i]);
  }

  /** `GameSession.init(level:)` with every other field at its default. */
  function InitialSession(level: int, now: real, cs: seq<Challenge>): (s: GameSession)
    ensures s.startTime == now && s.level == level && s.challenges == cs
    ensures s.endTime.None? && !s.isCompleted
    ensures s.currentChallengeIndex == 0 && s.score == 0
    ensures s.totalGestures == 0 && s.correctGestures == 0
  {
    GameSession(now, None, cs, 0, 0, level, 0, 0, false)
  }

  method NewSession(level: int, now: real) returns (s: GameSession)
    requires level >= -5
    ensures Generated(level, s.challenges)
    ensures s == InitialSession(level, now, s.challenges)
    ensures SessionInv(s)
  {
    var cs := GenerateChallenges(level);
    s := InitialSession(level, now, cs);
  }

  // ---------------------------------------------------------------------------
  // Read-only views

  /** `duration`: end minus start once stamped, otherwise now minus start. */
  function Duration(s: GameSession, now: real): (d: real)
    ensures s.endTime.Some? ==> d == s.endTime.value - s.startTime
    ensures s.endTime.None? ==> d == now - s.startTime
  {
    match s.endTime
    case Some(e) => e - s.startTime
    case None => now - s.startTime
  }

  /** `accuracy`: the share of correct gestures, 0 before the first gesture. */
  function Accuracy(s: GameSession): (a: real)
    ensures s.totalGestures == 0 ==> a == 0.0
    ensures s.correctGestures <= s.totalGestures ==> 0.0 <= a <= 1.0
    ensures s.totalGestures > 0 && s.correctGestures == s.totalGestures ==> a == 1.0
  {
    if s.totalGestures > 0 then s.correctGestures as real / s.totalGestures as real else 0.0
  }

  /** `currentChallenge`: the challenge at the index, or none once the index has run past the end. */
  function CurrentChallenge(s: GameSession): (c: Option<Challenge>)
    ensures c.Some? <==> s.currentChallengeIndex < |s.challenges|
    ensures c.Some? ==> c.value == s.challenges[s.currentChallengeIndex]
  {
    if s.currentChallengeIndex < |s.challenges| then Some(s.challenges[s.currentChallengeIndex]) else None
  }

  /** `progress`: the fraction of challenges passed, 0 for an empty list. */
  function Progress(s: GameSession): (p: real)
    ensures |s.challenges| == 0 ==> p == 0.0
    ensures s.currentChallengeIndex <= |s.challenges| ==> 0.0 <= p <= 1.0
    ensures 0 < |s.challenges| == s.currentChallengeIndex ==> p == 1.0
  {
    if |s.challenges| == 0 then 0.0 else s.currentChallengeIndex as real / |s.challenges| as real
  }

  // ---------------------------------------------------------------------------
  // Scoring and state changes

  /**
    Points for one completed challenge: `difficulty * 100` plus the time bonus
    `max(0, Int((timeLimit - completionTime) * 10))` plus `Int(accuracy * 100)`.
    `Int(_:)` truncates; nothing is rounded.
   */
  function ChallengeScore(g: GestureType, timeLimit: real, completionTime: real, accuracy: real): (points: int)
    ensures 0.0 <= accuracy ==> points >= 100 * Difficulty(g) >= 100
    ensures 0.0 <= accuracy <= 1.0 && completionTime >= timeLimit ==> points <= 100 * Difficulty(g) + 100
  {
    Difficulty(g) * 100 + Max(0, Trunc((timeLimit - completionTime) * 10.0)) + Trunc(accuracy * 100.0)
  }

  /** Holding the gesture fixed, finishing sooner and more accurately never scores less. */
  lemma ScoreMonotonic(g: GestureType, limit: real, t1: real, t2: real, a1: real, a2: real)
    requires t2 <= t1 && a1 <= a2
    ensures ChallengeScore(g, limit, t1, a1) <= ChallengeScore(g, limit, t2, a2)
  {
    TruncMonotonic((limit - t1) * 10.0, (limit - t2) * 10.0);
    TruncMonotonic(a1 * 100.0, a2 * 100.0);
  }

  /** A level-1 difficulty-1 challenge done in 1 s at full accuracy scores 100 + 85 + 100. */
  lemma ScoreExampleLevelOne()
    ensures TimeLimitFor(1) == 9.5
    ensures ChallengeScore(Tap, TimeLimitFor(1), 1.0, 1.0) == 285
  {
    assert (9.5 - 1.0) * 10.0 == 85.0;
    assert 1.0 * 100.0 == 100.0;
  }

  /**
    `completeCurrentChallenge(completionTime:accuracy:)`: a no-op once the index
    is past the end; otherwise it records the completion on the current
    challenge, adds its points, advances the index and, after the last
    challenge, marks the session completed and stamps `endTime`.
   */
  function CompleteCurrentChallenge(s: GameSession, completionTime: real, accuracy: real, now: real): (r: GameSession)
    ensures s.currentChallengeIndex >= |s.challenges| ==> r == s
    ensures s.currentChallengeIndex < |s.challenges| ==>
      var i := s.currentChallengeIndex;
      var c := s.challenges[i];
      && |r.challenges| == |s.challenges|
      && r.challenges[i] == c.(isCompleted := true, completionTime := Some(completionTime), accuracy := Some(accuracy))
      && (forall j :: 0 <= j < |s.challenges| && j != i ==> r.challenges[j] == s.challenges[j])
      && r.score == s.score + ChallengeScore(c.gestureType, c.timeLimit, completionTime, accuracy)
      && r.currentChallengeIndex == i + 1
      && (i + 1 == |s.challenges| ==> r.isCompleted && r.endTime == Some(now))
      && (i + 1 < |s.challenges| ==> r.isCompleted == s.isCompleted && r.endTime == s.endTime)
      && r.startTime == s.startTime && r.level == s.level
      && r.totalGestures == s.totalGestures && r.correctGestures == s.correctGestures
    ensures 0.0 <= accuracy && s.currentChallengeIndex < |s.challenges| ==> r.score >= s.score + 100
  {
    if s.currentChallengeIndex >= |s.challenges| then s
    else
      var i := s.currentChallengeIndex;
      var c := s.challenges[i];
      var done := c.(isCompleted := true, completionTime := Some(completionTime), accuracy := Some(accuracy));
      var points := ChallengeScore(c.gestureType, c.timeLimit, completionTime, accuracy);
      var next := s.(challenges := s.challenges[i := done], score := s.score + points, currentChallengeIndex := i + 1);
      if next.currentChallengeIndex >= |next.challenges| then next.(isCompleted := true, endTime := Some(now))
      else next
  }

  /** `recordGesture(isCorrect:)`: one more gesture, and one more correct one if it matched. */
  function RecordGesture(s: GameSession, isCorrect: bool): (r: GameSession)
    ensures r.totalGestures == s.totalGestures + 1
    ensures r.correctGestures == if isCorrect then s.correctGestures + 1 else s.correctGestures
    ensures r.(totalGestures := s.totalGestures, correctGestures := s.correctGestures) == s
  {
    var counted := s.(totalGestures := s.totalGestures + 1);
    if isCorrect then counted.(correctGestures := counted.correctGestures + 1) else counted
  }

  // ---------------------------------------------------------------------------
  // The session invariant

  /**
    What holds of every session the game produces: the index never passes the
    end, exactly the challenges before it are completed (with their data), the
    session is completed exactly when a non-empty list is used up, `endTime` is
    stamped exactly then, correct gestures never exceed all gestures, every
    challenge asks for at least one repetition, and the score is non-negative.
   */
  ghost predicate SessionInv(s: GameSession) {
    && s.currentChallengeIndex <= |s.challenges|
    && (s.isCompleted <==> 0 < |s.challenges| == s.currentChallengeIndex)
    && (s.endTime.Some? <==> s.isCompleted)
    && s.correctGestures <= s.totalGestures
    && s.score >= 0
    && (forall i :: 0 <= i < |s.challenges| ==> ChallengeInv(s.challenges[i], i < s.currentChallengeIndex))
  }

  ghost predicate ChallengeInv(c: Challenge, passed: bool) {
    && c.targetCount >= 1
    && c.isCompleted == passed
    && (c.isCompleted <==> c.completionTime.Some?)
    && (c.isCompleted <==> c.accuracy.Some?)
  }

  lemma InitialSessionInv(level: int, now: real, cs: seq<Challenge>)
    requires Generated(level, cs)
    ensures SessionInv(InitialSession(level, now, cs))
  {
    var s := InitialSession(level, now, cs);
    forall i | 0 <= i < |cs|
      ensures ChallengeInv(cs[i], i < s.currentChallengeIndex)
    {
      assert GeneratedAt(level, i, cs[i]);
    }
  }

  lemma CompletePreservesInv(s: GameSession, completionTime: real, accuracy: real, now: real)
    requires SessionInv(s) && 0.0 <= accuracy
    ensures SessionInv(CompleteCurrentChallenge(s, completionTime, accuracy, now))
  {
    var r := CompleteCurrentChallenge(s, completionTime, accuracy, now);
    if s.currentChallengeIndex < |s.challenges| {
      forall i | 0 <= i < |r.challenges|
        ensures ChallengeInv(r.challenges[i], i < r.currentChallengeIndex)
      {
        if i != s.currentChallengeIndex {
          assert ChallengeInv(s.challenges[i], i < s.currentChallengeIndex);
        } else {
          assert ChallengeInv(s.challenges[i], false);
        }
      }
    }
  }

  lemma RecordPreservesInv(s: GameSession, isCorrect: bool)
    requires SessionInv(s)
    ensures SessionInv(RecordGesture(s, isCorrect))
  {
  }

  /** One event the game applies to a session. */
  datatype SessionEvent =
    | Completion(completionTime: real, accuracy: real, at: real)
    | Gesture(isCorrect: bool)

  function Apply(s: GameSession, e: SessionEvent): GameSession {
    match e
    case Completion(t, a, now) => CompleteCurrentChallenge(s, t, a, now)
    case Gesture(ok) => RecordGesture(s, ok)
  }

  function Replay(s: GameSession, events: seq<SessionEvent>): GameSession
    decreases |events|
  {
    if events == [] then s else Replay(Apply(s, events[0]), events[1..])
  }

  /** The game only passes accuracies clamped into [0, 1]. */
  predicate ClampedAccuracies(events: seq<SessionEvent>) {
    forall k :: 0 <= k < |events| && events[k].Completion? ==> 0.0 <= events[k].accuracy <= 1.0
  }

  /**
    From a freshly generated session, after any sequence of completions and
    gestures: the index stays within the list, the session is completed
    exactly when a non-empty list is used up, `endTime` is stamped exactly
    then, and neither index nor score ever goes down.
   */
  lemma {:induction false} ReplayKeepsInv(s: GameSession, events: seq<SessionEvent>)
    requires SessionInv(s) && ClampedAccuracies(events)
    ensures var r := Replay(s, events);
      && SessionInv(r)
      && r.currentChallengeIndex <= |r.challenges| == |s.challenges|
      && (r.isCompleted <==> 0 < |r.challenges| == r.currentChallengeIndex)
      && (r.endTime.Some? <==> r.isCompleted)
      && r.currentChallengeIndex >= s.currentChallengeIndex
      && r.score >= s.score
    decreases |events|
  {
    if events != [] {
      var e := events[0];
      var s' := Apply(s, e);
      match e {
        case Completion(t, a, now) => CompletePreservesInv(s, t, a, now);
        case Gesture(ok) => RecordPreservesInv(s, ok);
      }
      assert ClampedAccuracies(events[1..]) by {
        forall k | 0 <= k < |events[1..]| && events[1..][k].Completion?
          ensures 0.0 <= events[1..][k].accuracy <= 1.0
        {
          assert events[1..][k] == events[k + 1];
        }
      }
      ReplayKeepsInv(s', events[1..]);
    }
  }

  /** Once completed, further completions change nothing. */
  lemma CompletedIsFinal(s: GameSession, completionTime: real, accuracy: real, now: real)
    requires SessionInv(s) && s.isCompleted
    ensures CompleteCurrentChallenge(s, completionTime, accuracy, now) == s
  {
  }

  /**
    Replaying `n` identical completions from index `idx`, over challenges that
    all carry gesture `g` and limit `limit`, advances the index by `n` and adds
    `n` times the per-challenge points; the last one stamps the end time.
   */
  lemma {:induction false} ReplayCompletions(s: GameSession, g: GestureType, limit: real, t: real, a: real, now: real, n: nat)
    requires s.currentChallengeIndex + n <= |s.challenges|
    requires forall j :: s.currentChallengeIndex <= j < |s.challenges| ==>
      s.challenges[j].gestureType == g && s.challenges[j].timeLimit == limit
    ensures var r := Replay(s, seq(n, k => Completion(t, a, now)));
      && r.currentChallengeIndex == s.currentChallengeIndex + n
      && |r.challenges| == |s.challenges|
      && r.score == s.score + n * ChallengeScore(g, limit, t, a)
      && (n > 0 && s.currentChallengeIndex + n == |s.challenges| ==> r.isCompleted && r.endTime == Some(now))
    decreases n
  {
    var events := seq(n, k => Completion(t, a, now));
    var points := ChallengeScore(g, limit, t, a);
    if n == 0 {
      assert events == [];
    } else {
      var i := s.currentChallengeIndex;
      var s' := CompleteCurrentChallenge(s, t, a, now);
      assert s'.currentChallengeIndex == i + 1 && |s'.challenges| == |s.challenges|;
      assert s'.score == s.score + points;
      assert forall j :: i + 1 <= j < |s.challenges| ==> s'.challenges[j] == s.challenges[j];
      assert events[0] == Completion(t, a, now);
      assert events[1..] == seq(n - 1, k => Completion(t, a, now));
      assert Replay(s, events) == Replay(s', events[1..]);
      ReplayCompletions(s', g, limit, t, a, now, n - 1);
      assert n * points == (n - 1) * points + points;
    }
  }

  /** A level-1 session cleared with six full-accuracy, one-second tap challenges scores 6 * 285 = 1710. */
  lemma LevelOneExample(now: real, later: real, cs: seq<Challenge>)
    requires Generated(1, cs)
    requires forall i :: 0 <= i < |cs| ==> cs[i].gestureType == Tap
    ensures var done := Replay(InitialSession(1, now, cs), seq(6, k => Completion(1.0, 1.0, later)));
      done.isCompleted && done.score == 1710 && done.endTime == Some(later)
  {
    ScoreExampleLevelOne();
    forall j | 0 <= j < |cs|
      ensures cs[j].timeLimit == TimeLimitFor(1)
    {
      assert GeneratedAt(1, j, cs[j]);
    }
    ReplayCompletions(InitialSession(1, now, cs), Tap, TimeLimitFor(1), 1.0, 1.0, later, 6);
  }
}
