/**
  Cumulative player statistics (the `PlayerStats` and `GestureStats` structs
  of Models/GameSession.swift).

  `GestureStats` is a running aggregate per gesture; `PlayerStats` folds whole
  sessions in. Both are Swift value types: `GestureStats.updateWith` is a
  function from old to new value; `PlayerStats.updateWith`, which loops over
  the challenges and then over the dictionary, is a method proved against the
  function `StatsAfter`.
 */
module Stats {
  import opened Common
  import opened Gestures
  import opened Session

  datatype GestureStats = GestureStats(
    timesPerformed: nat,
    totalAccuracy: real,
    averageAccuracy: real,
    bestTime: Option<real>,   // None stands for the initial `Double.infinity`
    averageTime: real,
    totalTime: real)

  const DefaultGestureStats := GestureStats(0, 0.0, 0.0, None, 0.0, 0.0)

  /**
    `GestureStats.updateWith(challenge:)`: skipped unless the challenge carries
    both a completion time and an accuracy; otherwise one more performance is
    folded into the running totals, averages and best time.
   */
  function UpdateGestureStats(gs: GestureStats, c: Challenge): (r: GestureStats)
    ensures c.completionTime.None? || c.accuracy.None? ==> r == gs
    ensures c.completionTime.Some? && c.accuracy.Some? ==>
      && r.timesPerformed == gs.timesPerformed + 1
      && r.totalAccuracy == gs.totalAccuracy + c.accuracy.value
      && r.averageAccuracy == r.totalAccuracy / r.timesPerformed as real
      && r.totalTime == gs.totalTime + c.completionTime.value
      && r.averageTime == r.totalTime / r.timesPerformed as real
      && r.bestTime.Some?
      && r.bestTime.value <= c.completionTime.value
      && (gs.bestTime.Some? ==> r.bestTime.value <= gs.bestTime.value)
      && (r.bestTime.value == c.completionTime.value || r.bestTime == gs.bestTime)
  {
    match (c.completionTime, c.accuracy)
    case (Some(completionTime), Some(accuracy)) =>
      var timesPerformed := gs.timesPerformed + 1;
      var totalAccuracy := gs.totalAccuracy + accuracy;
      var totalTime := gs.totalTime + completionTime;
      var bestTime := match gs.bestTime
        case None => completionTime
        case Some(b) => MinReal(b, completionTime);
      GestureStats(timesPerformed, totalAccuracy, totalAccuracy / timesPerformed as real,
                   Some(bestTime), totalTime / timesPerformed as real, totalTime)
    case _ => gs
  }

  /**
    The running-aggregate invariant: averages are totals over the count, the
    best time exists exactly once something was performed, and a zero count
    means the default record.
   */
  ghost predicate GestureStatsInv(gs: GestureStats) {
    && (gs.timesPerformed == 0 ==> gs == DefaultGestureStats)
    && (gs.timesPerformed > 0 ==>
          && gs.averageAccuracy == gs.totalAccuracy / gs.timesPerformed as real
          && gs.averageTime == gs.totalTime / gs.timesPerformed as real
          && gs.bestTime.Some?)
  }

  /** Accuracies seen so far all lie in [0, 1], so the average does too. */
  ghost predicate AccuracyInRange(gs: GestureStats) {
    0.0 <= gs.totalAccuracy <= gs.timesPerformed as real && 0.0 <= gs.averageAccuracy <= 1.0
  }

  lemma UpdateGestureStatsKeepsInv(gs: GestureStats, c: Challenge)
    requires GestureStatsInv(gs)
    ensures GestureStatsInv(UpdateGestureStats(gs, c))
  {
  }

  lemma UpdateGestureStatsKeepsRange(gs: GestureStats, c: Challenge)
    requires GestureStatsInv(gs) && AccuracyInRange(gs)
    requires c.accuracy.Some? ==> 0.0 <= c.accuracy.value <= 1.0
    ensures AccuracyInRange(UpdateGestureStats(gs, c))
  {
    var r := UpdateGestureStats(gs, c);
    if c.completionTime.Some? && c.accuracy.Some? {
      var n := r.timesPerformed as real;
      assert 0.0 <= r.totalAccuracy <= n;
      assert r.averageAccuracy == r.totalAccuracy / n;
      DivideWithinUnit(r.totalAccuracy, n);
    }
  }

  lemma DivideWithinUnit(x: real, n: real)
    requires 0.0 < n && 0.0 <= x <= n
    ensures 0.0 <= x / n <= 1.0
  {
    assert x / n * n == x;
  }

  // ---------------------------------------------------------------------------
  // PlayerStats

  datatype PlayerStats = PlayerStats(
    totalSessions: int,
    totalScore: int,
    bestScore: int,
    totalPlayTime: real,
    averageAccuracy: real,
    levelsCompleted: int,
    gestureStats: map<string, GestureStats>,
    lastPlayedDate: Option<real>)

  const DefaultPlayerStats := PlayerStats(0, 0, 0, 0.0, 0.0, 0, map[], None)

  /**
    One iteration of the `for challenge in session.challenges where
    challenge.isCompleted` loop: the entry is created first, then updated
    (the update itself may still be skipped for missing data).
   */
  function GestureStep(m: map<string, GestureStats>, c: Challenge): map<string, GestureStats> {
    if !c.isCompleted then m
    else
      var key := RawValue(c.gestureType);
      var entry := if key in m then m[key] else DefaultGestureStats;
      m[key := UpdateGestureStats(entry, c)]
  }

  /** The dictionary after the loop has run over `cs`, left to right. */
  function FoldGestureStats(m: map<string, GestureStats>, cs: seq<Challenge>): map<string, GestureStats>
    decreases |cs|
  {
    if cs == [] then m else GestureStep(FoldGestureStats(m, cs[..|cs| - 1]), cs[|cs| - 1])
  }

  /** The keys of the completed challenges among `cs`. */
  function CompletedKeys(cs: seq<Challenge>): set<string> {
    set i | 0 <= i < |cs| && cs[i].isCompleted :: RawValue(cs[i].gestureType)
  }

  /**
    Only keys of completed challenges are touched; each of them is present
    afterwards, even when its update was skipped; every other entry keeps its
    value.
   */
  lemma {:induction false} FoldGestureStatsKeys(m: map<string, GestureStats>, cs: seq<Challenge>)
    ensures FoldGestureStats(m, cs).Keys == m.Keys + CompletedKeys(cs)
    ensures forall k :: k in m && k !in CompletedKeys(cs) ==> FoldGestureStats(m, cs)[k] == m[k]
    decreases |cs|
  {
    if cs != [] {
      var init := cs[..|cs| - 1];
      var last := cs[|cs| - 1];
      FoldGestureStatsKeys(m, init);
      assert CompletedKeys(cs) == CompletedKeys(init) + (if last.isCompleted then {RawValue(last.gestureType)} else {}) by {
        forall k | k in CompletedKeys(cs)
          ensures k in CompletedKeys(init) || (last.isCompleted && k == RawValue(last.gestureType))
        {
          var i :| 0 <= i < |cs| && cs[i].isCompleted && k == RawValue(cs[i].gestureType);
          if i < |cs| - 1 {
            assert init[i] == cs[i];
          }
        }
        forall k | k in CompletedKeys(init)
          ensures k in CompletedKeys(cs)
        {
          var i :| 0 <= i < |init| && init[i].isCompleted && k == RawValue(init[i].gestureType);
          assert cs[i] == init[i];
        }
        if last.isCompleted {
          assert RawValue(cs[|cs| - 1].gestureType) in CompletedKeys(cs);
        }
      }
    }
  }

  /** A session with no completed challenge leaves the dictionary exactly as it was. */
  lemma NoCompletedNoChange(m: map<string, GestureStats>, cs: seq<Challenge>)
    requires forall i :: 0 <= i < |cs| ==> !cs[i].isCompleted
    ensures FoldGestureStats(m, cs) == m
  {
    FoldGestureStatsKeys(m, cs);
    assert CompletedKeys(cs) == {};
  }

  /** Every entry keeps the running-aggregate invariant through the fold. */
  lemma {:induction false} FoldGestureStatsKeepsInv(m: map<string, GestureStats>, cs: seq<Challenge>)
    requires forall k :: k in m ==> GestureStatsInv(m[k])
    ensures forall k :: k in FoldGestureStats(m, cs) ==> GestureStatsInv(FoldGestureStats(m, cs)[k])
    decreases |cs|
  {
    if cs != [] {
      var before := FoldGestureStats(m, cs[..|cs| - 1]);
      FoldGestureStatsKeepsInv(m, cs[..|cs| - 1]);
      var c := cs[|cs| - 1];
      if c.isCompleted {
        var key := RawValue(c.gestureType);
        var entry := if key in before then before[key] else DefaultGestureStats;
        UpdateGestureStatsKeepsInv(entry, c);
      }
    }
  }

  /** The sum of the per-gesture average accuracies (the order of the dictionary does not matter). */
  ghost function SumAverageAccuracy(m: map<string, GestureStats>): real
    decreases |m|
  {
    if m == map[] then 0.0
    else
      var k := SomeKey(m);
      m[k].averageAccuracy + SumAverageAccuracy(m - {k})
  }

  ghost function SomeKey(m: map<string, GestureStats>): (k: string)
    requires m != map[]
    ensures k in m
  {
    var k :| k in m; k
  }

  /** Any entry can be taken out first. */
  lemma {:induction false} SumAverageAccuracyRemove(m: map<string, GestureStats>, k: string)
    requires k in m
    ensures SumAverageAccuracy(m) == m[k].averageAccuracy + SumAverageAccuracy(m - {k})
    decreases |m|
  {
    var k' := SomeKey(m);
    if k' != k {
      assert (m - {k'}) - {k} == (m - {k}) - {k'};
      SumAverageAccuracyRemove(m - {k'}, k);
      SumAverageAccuracyRemove(m - {k}, k');
    }
  }

  /** Averages in [0, 1] sum to at most the number of entries. */
  lemma {:induction false} SumAverageAccuracyBounds(m: map<string, GestureStats>)
    requires forall k :: k in m ==> 0.0 <= m[k].averageAccuracy <= 1.0
    ensures 0.0 <= SumAverageAccuracy(m) <= |m| as real
    decreases |m|
  {
    if m != map[] {
      var k := SomeKey(m);
      SumAverageAccuracyBounds(m - {k});
      assert |m - {k}| == |m| - 1;
    }
  }

  /** `averageAccuracy`: the unweighted mean of the per-gesture averages, 0 when there are none. */
  ghost function MeanAverageAccuracy(m: map<string, GestureStats>): real {
    if |m| == 0 then 0.0 else SumAverageAccuracy(m) / |m| as real
  }

  lemma MeanAverageAccuracyInRange(m: map<string, GestureStats>)
    requires forall k :: k in m ==> 0.0 <= m[k].averageAccuracy <= 1.0
    ensures 0.0 <= MeanAverageAccuracy(m) <= 1.0
  {
    if |m| > 0 {
      SumAverageAccuracyBounds(m);
      DivideWithinUnit(SumAverageAccuracy(m), |m| as real);
    }
  }

  /** What `PlayerStats.updateWith(session:)` leaves behind, with `Date()` read as `now`. */
  ghost function StatsAfter(p: PlayerStats, s: GameSession, now: real): PlayerStats {
    var gs := FoldGestureStats(p.gestureStats, s.challenges);
    PlayerStats(
      totalSessions := p.totalSessions + 1,
      totalScore := p.totalScore + s.score,
      bestScore := Max(p.bestScore, s.score),
      totalPlayTime := p.totalPlayTime + Duration(s, now),
      averageAccuracy := MeanAverageAccuracy(gs),
      levelsCompleted := if s.isCompleted then Max(p.levelsCompleted, s.level) else p.levelsCompleted,
      gestureStats := gs,
      lastPlayedDate := Some(now))
  }

  /** Restricting a dictionary to a set of keys. */
  function Restrict(m: map<string, GestureStats>, keys: set<string>): (r: map<string, GestureStats>)
    ensures r.Keys == m.Keys * keys
  {
    map k | k in m && k in keys :: m[k]
  }

  /**
    `gestureStats.values.reduce(0.0) { $0 + $1.averageAccuracy }`: the sum of
    the per-gesture averages, taken in whatever order the dictionary yields.
   */
  method ReduceAverageAccuracy(m: map<string, GestureStats>) returns (total: real)
    ensures total == SumAverageAccuracy(m)
  {
    total := 0.0;
    var remaining := m.Keys;
    assert Restrict(m, remaining) == m;
    while remaining != {}
      invariant remaining <= m.Keys
      invariant total + SumAverageAccuracy(Restrict(m, remaining)) == SumAverageAccuracy(m)
      decreases |remaining|
    {
      var key :| key in remaining;
      var part := Restrict(m, remaining);
      SumAverageAccuracyRemove(part, key);
      assert part - {key} == Restrict(m, remaining - {key});
      total := total + m[key].averageAccuracy;
      remaining := remaining - {key};
    }
    assert Restrict(m, {}) == map[];
  }

  /**
    `PlayerStats.updateWith(session:)`: counts the session, adds its score,
    raises the best score, adds its duration, raises `levelsCompleted` for a
    completed session, folds each completed challenge into its gesture's entry,
    and recomputes the mean accuracy over the entries.
   */
  method UpdatePlayerStats(p: PlayerStats, session: GameSession, now: real) returns (r: PlayerStats)
    ensures r == StatsAfter(p, session, now)
    ensures r.totalSessions == p.totalSessions + 1
    ensures r.totalScore == p.totalScore + session.score
    ensures r.bestScore >= p.bestScore && r.bestScore >= session.score
    ensures r.bestScore == p.bestScore || r.bestScore == session.score
    ensures r.levelsCompleted >= p.levelsCompleted
    ensures !session.isCompleted ==> r.levelsCompleted == p.levelsCompleted
    ensures r.lastPlayedDate == Some(now)
  {
    var gestureStats := p.gestureStats;
    var challenges := session.challenges;
    var i := 0;
    while i < |challenges|
      invariant 0 <= i <= |challenges|
      invariant gestureStats == FoldGestureStats(p.gestureStats, challenges[..i])
    {
      var challenge := challenges[i];
      ghost var before := gestureStats;
      if challenge.isCompleted {
        var gestureKey := RawValue(challenge.gestureType);
        if gestureKey !in gestureStats {
          gestureStats := gestureStats[gestureKey := DefaultGestureStats];
        }
        gestureStats := gestureStats[gestureKey := UpdateGestureStats(gestureStats[gestureKey], challenge)];
      }
      assert gestureStats == GestureStep(before, challenge);
      assert challenges[..i + 1][..i] == challenges[..i];
      assert challenges[..i + 1][i] == challenge;
      i := i + 1;
    }
    assert challenges[..i] == challenges;

    var totalAccuracy := ReduceAverageAccuracy(gestureStats);
    r := PlayerStats(
      totalSessions := p.totalSessions + 1,
      totalScore := p.totalScore + session.score,
      bestScore := Max(p.bestScore, session.score),
      totalPlayTime := p.totalPlayTime + Duration(session, now),
      averageAccuracy := if |gestureStats| == 0 then 0.0 else totalAccuracy / |gestureStats| as real,
      levelsCompleted := if session.isCompleted then Max(p.levelsCompleted, session.level) else p.levelsCompleted,
      gestureStats := gestureStats,
      lastPlayedDate := Some(now));
  }

  /**
    What a valid store keeps: counters that start at zero and only grow, and
    per-gesture entries that satisfy the running-aggregate invariant.
   */
  ghost predicate StatsInv(p: PlayerStats) {
    && p.totalSessions >= 0
    && p.totalScore >= 0
    && p.bestScore >= 0
    && p.levelsCompleted >= 0
    && forall k :: k in p.gestureStats ==> GestureStatsInv(p.gestureStats[k])
  }

  lemma DefaultStatsInv()
    ensures StatsInv(DefaultPlayerStats)
  {
  }

  lemma StatsAfterKeepsInv(p: PlayerStats, s: GameSession, now: real)
    requires StatsInv(p) && s.score >= 0
    ensures StatsInv(StatsAfter(p, s, now))
  {
    FoldGestureStatsKeepsInv(p.gestureStats, s.challenges);
  }

  /**
    Folding a session: exactly the keys of its completed challenges are added,
    the other entries are untouched, and for a session without completed
    challenges the whole dictionary is unchanged.
   */
  lemma StatsAfterGestureStats(p: PlayerStats, s: GameSession, now: real)
    ensures StatsAfter(p, s, now).gestureStats.Keys == p.gestureStats.Keys + CompletedKeys(s.challenges)
    ensures forall k :: k in p.gestureStats && k !in CompletedKeys(s.challenges) ==>
      StatsAfter(p, s, now).gestureStats[k] == p.gestureStats[k]
    ensures (forall i :: 0 <= i < |s.challenges| ==> !s.challenges[i].isCompleted) ==>
      StatsAfter(p, s, now).gestureStats == p.gestureStats
  {
    FoldGestureStatsKeys(p.gestureStats, s.challenges);
    if forall i :: 0 <= i < |s.challenges| ==> !s.challenges[i].isCompleted {
      NoCompletedNoChange(p.gestureStats, s.challenges);
    }
  }

  /** The recomputed player accuracy is the unweighted mean of per-gesture averages, and 0 with no entries. */
  lemma StatsAfterAverageAccuracy(p: PlayerStats, s: GameSession, now: real)
    ensures var r := StatsAfter(p, s, now);
      && (|r.gestureStats| == 0 ==> r.averageAccuracy == 0.0)
      && (|r.gestureStats| > 0 ==> r.averageAccuracy * |r.gestureStats| as real == SumAverageAccuracy(r.gestureStats))
  {
  }
}
