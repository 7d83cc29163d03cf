/**
  The statistics store and its analytics (Services/UtilityService.swift).

  The store owns the cumulative `PlayerStats` and the most-recent-first list
  of finished sessions, capped at 50. Persistence to the key-value store is
  not part of this model; the asynchronous bodies of `recordSession` and
  `resetAllData` run as one synchronous step.
 */
module Service {
  import opened Common
  import opened Gestures
  import opened Session
  import opened Stats
  import opened Sorting

  const MaxRecentSessions := 50
  const MaxLevel := 20

  /** `recentSessions.insert(session, at: 0)` followed by keeping the first 50. */
  function PushRecent(recent: seq<GameSession>, s: GameSession): (r: seq<GameSession>)
    ensures |r| == Min(|recent| + 1, MaxRecentSessions)
    ensures r[0] == s
    ensures forall i :: 1 <= i < |r| ==> r[i] == recent[i - 1]
  {
    var inserted := [s] + recent;
    if |inserted| > MaxRecentSessions then inserted[..MaxRecentSessions] else inserted
  }

  /** The list never grows past the cap, and once full it keeps its length. */
  lemma PushRecentBounded(recent: seq<GameSession>, s: GameSession)
    requires |recent| <= MaxRecentSessions
    ensures |PushRecent(recent, s)| <= MaxRecentSessions
    ensures |recent| == MaxRecentSessions ==> |PushRecent(recent, s)| == MaxRecentSessions
    ensures |recent| < MaxRecentSessions ==> PushRecent(recent, s) == [s] + recent
  {
  }

  // ---------------------------------------------------------------------------
  // Recommended level

  function SumAccuracy(ss: seq<GameSession>): (total: real)
    ensures (forall i :: 0 <= i < |ss| ==> ss[i].correctGestures <= ss[i].totalGestures) ==>
      0.0 <= total <= |ss| as real
  {
    if ss == [] then 0.0 else Accuracy(ss[0]) + SumAccuracy(ss[1..])
  }

  /** Mean accuracy of the (up to) five most recent sessions; 0 when there are none. */
  function RecentAccuracy(recent: seq<GameSession>): (avg: real)
    ensures recent == [] ==> avg == 0.0
    ensures (forall i :: 0 <= i < |recent| ==> recent[i].correctGestures <= recent[i].totalGestures) ==>
      0.0 <= avg <= 1.0
  {
    var recentPerformance := recent[..Min(|recent|, 5)];
    var n := Max(|recentPerformance|, 1) as real;
    var total := SumAccuracy(recentPerformance);
    assert 0.0 <= total <= |recentPerformance| as real ==> 0.0 <= total / n <= 1.0 by {
      if 0.0 <= total <= |recentPerformance| as real {
        DivideWithinUnit(total, n);
      }
    }
    total / n
  }

  /** Sessions older than the fifth most recent do not influence the recommendation. */
  lemma RecentAccuracyIgnoresOlder(recent: seq<GameSession>, older: seq<GameSession>)
    requires |recent| >= 5
    ensures RecentAccuracy(recent + older) == RecentAccuracy(recent)
  {
    assert (recent + older)[..5] == recent[..5];
  }

  // ---------------------------------------------------------------------------
  // Derived records

  datatype PerformancePoint = PerformancePoint(sessionNumber: int, score: int, accuracy: real, date: real)

  datatype GesturePerformance = GesturePerformance(
    gestureType: GestureType, accuracy: real, averageTime: real, timesPerformed: nat)

  function StartTimeKey(s: GameSession): real { s.startTime }

  /** `sorted { $0.accuracy > $1.accuracy }`: ascending in the negated accuracy. */
  function DescendingAccuracyKey(e: GesturePerformance): real { -e.accuracy }

  /** The record reported for a gesture, read from its statistics entry. */
  function PerformanceOf(g: GestureType, p: PlayerStats): GesturePerformance
    requires RawValue(g) in p.gestureStats
  {
    var stats := p.gestureStats[RawValue(g)];
    GesturePerformance(g, stats.averageAccuracy, stats.averageTime, stats.timesPerformed)
  }

  /** The `compactMap` over `allCases`: one record per gesture that has a statistics entry, in catalogue order. */
  function EntriesAmong(gs: seq<GestureType>, p: PlayerStats): (r: seq<GesturePerformance>)
    ensures forall e :: e in r ==>
      (e.gestureType in gs && RawValue(e.gestureType) in p.gestureStats && e == PerformanceOf(e.gestureType, p))
    ensures forall g :: g in gs && RawValue(g) in p.gestureStats ==> PerformanceOf(g, p) in r
    ensures (forall i, j :: 0 <= i < j < |gs| ==> gs[i] != gs[j]) ==>
      forall i, j :: 0 <= i < j < |r| ==> r[i].gestureType != r[j].gestureType
  {
    if gs == [] then []
    else
      var rest := EntriesAmong(gs[1..], p);
      if RawValue(gs[0]) in p.gestureStats then
        assert forall e :: e in rest ==> e.gestureType in gs[1..];
        [PerformanceOf(gs[0], p)] + rest
      else rest
  }

  // ---------------------------------------------------------------------------
  // Achievements

  datatype Achievement = Achievement(title: string, description: string, icon: string, isUnlocked: bool)

  datatype AchievementKind =
    | ScoreMaster | GestureLegend | DedicatedPlayer | GestureEnthusiast
    | PrecisionMaster | LevelExplorer | ChallengeConqueror

  /** The threshold each achievement is gated by. */
  predicate Earned(k: AchievementKind, p: PlayerStats) {
    match k
    case ScoreMaster => p.bestScore >= 1000
    case GestureLegend => p.bestScore >= 5000
    case DedicatedPlayer => p.totalSessions >= 10
    case GestureEnthusiast => p.totalSessions >= 50
    case PrecisionMaster => p.averageAccuracy >= 0.9
    case LevelExplorer => p.levelsCompleted >= 5
    case ChallengeConqueror => p.levelsCompleted >= 15
  }

  function AchievementInfo(k: AchievementKind): (a: Achievement)
    ensures a.isUnlocked
  {
    match k
    case ScoreMaster => Achievement("Score Master", "Achieved a score of 1000+", "star.fill", true)
    case GestureLegend => Achievement("Gesture Legend", "Achieved a score of 5000+", "crown.fill", true)
    case DedicatedPlayer => Achievement("Dedicated Player", "Completed 10 game sessions", "gamecontroller.fill", true)
    case GestureEnthusiast => Achievement("Gesture Enthusiast", "Completed 50 game sessions", "hand.raised.fill", true)
    case PrecisionMaster => Achievement("Precision Master", "Maintained 90%+ accuracy", "target", true)
    case LevelExplorer => Achievement("Level Explorer", "Completed 5 levels", "map.fill", true)
    case ChallengeConqueror => Achievement("Challenge Conqueror", "Completed 15 levels", "mountain.2.fill", true)
  }

  /** The position of each achievement in the order the thresholds are checked. */
  function Rank(k: AchievementKind): nat {
    match k
    case ScoreMaster => 0
    case GestureLegend => 1
    case DedicatedPlayer => 2
    case GestureEnthusiast => 3
    case PrecisionMaster => 4
    case LevelExplorer => 5
    case ChallengeConqueror => 6
  }

  /** One achievement if its threshold holds, none otherwise. */
  function Part(k: AchievementKind, p: PlayerStats): seq<AchievementKind> {
    if Earned(k, p) then [k] else []
  }

  /** The unlocked achievements, checked in a fixed order. */
  function UnlockedKinds(p: PlayerStats): seq<AchievementKind> {
    Part(ScoreMaster, p) + Part(GestureLegend, p) + Part(DedicatedPlayer, p) + Part(GestureEnthusiast, p)
    + Part(PrecisionMaster, p) + Part(LevelExplorer, p) + Part(ChallengeConqueror, p)
  }

  /** The records shown for a list of achievements, in the same order. */
  function Infos(ks: seq<AchievementKind>): seq<Achievement> {
    if ks == [] then [] else Infos(ks[..|ks| - 1]) + [AchievementInfo(ks[|ks| - 1])]
  }

  lemma InfosAppend(ks: seq<AchievementKind>, k: AchievementKind)
    ensures Infos(ks + [k]) == Infos(ks) + [AchievementInfo(k)]
  {
    assert (ks + [k])[..|ks|] == ks;
  }

  /** One unlocked record per achievement, position by position. */
  lemma {:induction false} InfosPointwise(ks: seq<AchievementKind>)
    ensures |Infos(ks)| == |ks|
    ensures forall i :: 0 <= i < |ks| ==> Infos(ks)[i] == AchievementInfo(ks[i])
    ensures forall a :: a in Infos(ks) ==> a.isUnlocked
  {
    if ks != [] {
      InfosPointwise(ks[..|ks| - 1]);
    }
  }

  /** One step of `getAchievements()`: appends the record of `k` when its threshold holds. */
  method Unlock(achievements: seq<Achievement>, ghost kinds: seq<AchievementKind>, k: AchievementKind, p: PlayerStats)
    returns (r: seq<Achievement>, ghost rkinds: seq<AchievementKind>)
    requires achievements == Infos(kinds)
    ensures rkinds == kinds + Part(k, p)
    ensures r == Infos(rkinds)
  {
    r, rkinds := achievements, kinds;
    if Earned(k, p) {
      InfosAppend(kinds, k);
      r, rkinds := achievements + [AchievementInfo(k)], kinds + [k];
    }
  }

  ghost predicate RanksIncrease(ks: seq<AchievementKind>) {
    forall i, j :: 0 <= i < j < |ks| ==> Rank(ks[i]) < Rank(ks[j])
  }

  lemma AppendPart(ks: seq<AchievementKind>, k: AchievementKind, p: PlayerStats)
    requires RanksIncrease(ks)
    requires forall x :: x in ks ==> Rank(x) < Rank(k)
    ensures RanksIncrease(ks + Part(k, p))
    ensures forall x :: x in ks + Part(k, p) ==> Rank(x) <= Rank(k)
  {
    var r := ks + Part(k, p);
    forall i, j | 0 <= i < j < |r| ensures Rank(r[i]) < Rank(r[j]) {
      if j >= |ks| {
        assert r[j] == k && r[i] == ks[i] && ks[i] in ks;
      }
    }
  }

  lemma InPart(x: AchievementKind, k: AchievementKind, p: PlayerStats)
    ensures x in Part(k, p) <==> x == k && Earned(k, p)
  {
  }

  /** An achievement is listed exactly when its threshold holds. */
  lemma UnlockedMembership(p: PlayerStats)
    ensures forall k :: k in UnlockedKinds(p) <==> Earned(k, p)
  {
    forall k ensures k in UnlockedKinds(p) <==> Earned(k, p) {
      InPart(k, ScoreMaster, p);
      InPart(k, GestureLegend, p);
      InPart(k, DedicatedPlayer, p);
      InPart(k, GestureEnthusiast, p);
      InPart(k, PrecisionMaster, p);
      InPart(k, LevelExplorer, p);
      InPart(k, ChallengeConqueror, p);
    }
  }

  /** The listed achievements follow the fixed checking order. */
  lemma UnlockedOrder(p: PlayerStats)
    ensures RanksIncrease(UnlockedKinds(p))
  {
    var u1 := Part(ScoreMaster, p);
    AppendPart([], ScoreMaster, p);
    assert [] + u1 == u1;
    AppendPart(u1, GestureLegend, p);
    var u2 := u1 + Part(GestureLegend, p);
    AppendPart(u2, DedicatedPlayer, p);
    var u3 := u2 + Part(DedicatedPlayer, p);
    AppendPart(u3, GestureEnthusiast, p);
    var u4 := u3 + Part(GestureEnthusiast, p);
    AppendPart(u4, PrecisionMaster, p);
    var u5 := u4 + Part(PrecisionMaster, p);
    AppendPart(u5, LevelExplorer, p);
    var u6 := u5 + Part(LevelExplorer, p);
    AppendPart(u6, ChallengeConqueror, p);
  }

  /**
    Each of the seven achievements is listed exactly when its threshold holds,
    and the list follows the fixed checking order.
   */
  lemma UnlockedAchievements(p: PlayerStats)
    ensures forall k :: k in UnlockedKinds(p) <==> Earned(k, p)
    ensures RanksIncrease(UnlockedKinds(p))
  {
    UnlockedMembership(p);
    UnlockedOrder(p);
  }

  /** A higher tier implies the lower tier of the same kind, e.g. "Gesture Legend" implies "Score Master". */
  lemma AchievementTiers(p: PlayerStats)
    ensures GestureLegend in UnlockedKinds(p) ==> ScoreMaster in UnlockedKinds(p)
    ensures GestureEnthusiast in UnlockedKinds(p) ==> DedicatedPlayer in UnlockedKinds(p)
    ensures ChallengeConqueror in UnlockedKinds(p) ==> LevelExplorer in UnlockedKinds(p)
  {
    UnlockedAchievements(p);
  }

  // ---------------------------------------------------------------------------
  // The store

  class UtilityService {
    var playerStats: PlayerStats
    var recentSessions: seq<GameSession>

    ghost predicate Valid()
      reads this
    {
      |recentSessions| <= MaxRecentSessions && StatsInv(playerStats)
    }

    /** A first launch: nothing stored yet, so defaults (loading from the store is not modelled). */
    constructor ()
      ensures Valid()
      ensures playerStats == DefaultPlayerStats && recentSessions == []
    {
      playerStats := DefaultPlayerStats;
      recentSessions := [];
    }

    /**
      `recordSession(_:)`: fold the session into the statistics, then put it
      first in the capped list. The store stays valid for every session with a
      non-negative score, which is every session the game builds.
     */
    method RecordSession(session: GameSession, now: real)
      requires Valid()
      modifies this
      ensures |recentSessions| <= MaxRecentSessions
      ensures session.score >= 0 ==> Valid()
      ensures playerStats == StatsAfter(old(playerStats), session, now)
      ensures recentSessions == PushRecent(old(recentSessions), session)
      ensures |recentSessions| == Min(|old(recentSessions)| + 1, MaxRecentSessions)
      ensures recentSessions[0] == session
      ensures forall i :: 1 <= i < |recentSessions| ==> recentSessions[i] == old(recentSessions)[i - 1]
    {
      if session.score >= 0 {
        StatsAfterKeepsInv(playerStats, session, now);
      }
      playerStats := UpdatePlayerStats(playerStats, session, now);
      recentSessions := [session] + recentSessions;
      if |recentSessions| > MaxRecentSessions {
        recentSessions := recentSessions[..MaxRecentSessions];
      }
    }

    /** `resetAllData()`: back to the defaults, history emptied. */
    method ResetAllData()
      modifies this
      ensures Valid()
      ensures playerStats == DefaultPlayerStats && recentSessions == []
    {
      playerStats := DefaultPlayerStats;
      recentSessions := [];
    }

    /**
      `getRecommendedLevel()`: two levels up when the recent mean accuracy is
      above 0.9, one level up above 0.7 (both capped at 20), otherwise stay at
      `levelsCompleted` (uncapped), never below level 1.
     */
    function RecommendedLevel(): (level: int)
      reads this
      requires Valid()
      ensures level >= 1
      ensures recentSessions == [] ==> level == Max(playerStats.levelsCompleted, 1)
      ensures RecentAccuracy(recentSessions) > 0.9 ==> level == Min(playerStats.levelsCompleted + 2, MaxLevel)
      ensures 0.7 < RecentAccuracy(recentSessions) <= 0.9 ==> level == Min(playerStats.levelsCompleted + 1, MaxLevel)
      ensures RecentAccuracy(recentSessions) <= 0.7 ==> level == Max(playerStats.levelsCompleted, 1)
      ensures level > MaxLevel ==> level == playerStats.levelsCompleted && RecentAccuracy(recentSessions) <= 0.7
    {
      var averageAccuracy := RecentAccuracy(recentSessions);
      if averageAccuracy > 0.9 then Min(playerStats.levelsCompleted + 2, MaxLevel)
      else if averageAccuracy > 0.7 then Min(playerStats.levelsCompleted + 1, MaxLevel)
      else Max(playerStats.levelsCompleted, 1)
    }

    /** The recent sessions oldest first, as the trend chart reads them. */
    function SessionsByStartTime(): (ordered: seq<GameSession>)
      reads this
      ensures multiset(ordered) == multiset(recentSessions)
      ensures forall i, j :: 0 <= i < j < |ordered| ==> ordered[i].startTime <= ordered[j].startTime
    {
      var ordered := SortBy(recentSessions, StartTimeKey);
      assert SortedBy(ordered, StartTimeKey);
      ordered
    }

    /** `getPerformanceTrend()`: one point per recent session, oldest first, numbered from 1. */
    function PerformanceTrend(): (points: seq<PerformancePoint>)
      reads this
      ensures |points| == |recentSessions|
      ensures forall i :: 0 <= i < |points| ==> points[i].sessionNumber == i + 1
      ensures forall i, j :: 0 <= i < j < |points| ==> points[i].date <= points[j].date
      ensures forall i :: 0 <= i < |points| ==>
        var s := SessionsByStartTime()[i];
        points[i].score == s.score && points[i].accuracy == Accuracy(s) && points[i].date == s.startTime
    {
      var ordered := SessionsByStartTime();
      assert |ordered| == |multiset(recentSessions)| == |recentSessions|;
      seq(|ordered|, i requires 0 <= i < |ordered| =>
        PerformancePoint(i + 1, ordered[i].score, Accuracy(ordered[i]), ordered[i].startTime))
    }

    /** `getGesturePerformance()`: one record per gesture with statistics, most accurate first. */
    function GesturePerformances(): (r: seq<GesturePerformance>)
      reads this
      ensures multiset(r) == multiset(EntriesAmong(AllGestures, playerStats))
      ensures forall i, j :: 0 <= i < j < |r| ==> r[i].accuracy >= r[j].accuracy
      ensures forall g :: RawValue(g) in playerStats.gestureStats ==> PerformanceOf(g, playerStats) in r
      ensures forall e :: e in r ==>
        (RawValue(e.gestureType) in playerStats.gestureStats && e == PerformanceOf(e.gestureType, playerStats))
    {
      var entries := EntriesAmong(AllGestures, playerStats);
      var r := SortBy(entries, DescendingAccuracyKey);
      assert SortedBy(r, DescendingAccuracyKey);
      SameElements(r, entries);
      forall g ensures g in AllGestures {
        AllGesturesComplete(g);
      }
      r
    }

    /** `getAchievements()`: checks the seven thresholds in order and lists those that hold. */
    method GetAchievements() returns (achievements: seq<Achievement>)
      ensures achievements == Infos(UnlockedKinds(playerStats))
    {
      achievements := [];
      ghost var kinds: seq<AchievementKind> := [];
      achievements, kinds := Unlock(achievements, kinds, ScoreMaster, playerStats);
      achievements, kinds := Unlock(achievements, kinds, GestureLegend, playerStats);
      achievements, kinds := Unlock(achievements, kinds, DedicatedPlayer, playerStats);
      achievements, kinds := Unlock(achievements, kinds, GestureEnthusiast, playerStats);
      achievements, kinds := Unlock(achievements, kinds, PrecisionMaster, playerStats);
      achievements, kinds := Unlock(achievements, kinds, LevelExplorer, playerStats);
      achievements, kinds := Unlock(achievements, kinds, ChallengeConqueror, playerStats);
    }
  }
}
