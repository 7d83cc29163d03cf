/**
  The game controller (ViewModels/GameViewModel.swift).

  A class whose methods step the controller through menu, playing, paused
  and completed, driving the current session from gesture events and
  time-up events. The clock is the parameter `now`. The repeating 0.1 s
  timer is the flag `timerActive` plus the method `Tick`, one call per
  firing; the one-second `asyncAfter` that starts the next challenge is the
  counter `pendingStarts` plus the method `RunPendingStart`, one call per
  delivery. Bodies posted to the main queue run as one synchronous step.
 */
module GameController {
  import opened Common
  import opened Gestures
  import opened Session
  import opened Stats
  import opened Service

  datatype GameState = Menu | Onboarding | Playing | Paused | Completed | Result

  /**
    `min(Double(gestureCount) / Double(targetCount), 1.0)`: the accuracy a
    challenge is completed with, always within [0, 1], and exactly 1 once the
    target has been reached.
   */
  function ClampedAccuracy(gestureCount: nat, targetCount: int): (a: real)
    requires targetCount >= 1
    ensures 0.0 <= a <= 1.0
    ensures a == 1.0 <==> gestureCount >= targetCount
    ensures gestureCount < targetCount ==> a == gestureCount as real / targetCount as real
  {
    MinReal(gestureCount as real / targetCount as real, 1.0)
  }

  class GameViewModel {
    var currentSession: Option<GameSession>
    var gameState: GameState
    var timeRemaining: real
    var gestureCount: nat
    var showingResult: bool
    var showingOnboarding: bool
    /** Whether a repeating timer is scheduled (`timer != nil`). */
    var timerActive: bool
    var challengeStartTime: Option<real>
    /** Starts of the next challenge scheduled one second ahead and not yet delivered. */
    var pendingStarts: nat
    /** The shared statistics store (`UtilityService.shared`). */
    const utilityService: UtilityService

    /** The store is consistent, and so is the session in play, whose level can be restarted. */
    ghost predicate Valid()
      reads this, utilityService
    {
      && utilityService.Valid()
      && (currentSession.Some? ==> SessionInv(currentSession.value) && currentSession.value.level >= -5)
    }

    /** The challenge being played, if a session exists and has one left. */
    function Current(): (c: Option<Challenge>)
      reads this
      ensures c.Some? <==> currentSession.Some? && currentSession.value.currentChallengeIndex < |currentSession.value.challenges|
    {
      match currentSession
      case None => None
      case Some(s) => CurrentChallenge(s)
    }

    /** The store is unchanged, or holds `session` folded in and put first. */
    twostate predicate Handed(new session: Option<GameSession>, now: real)
      reads utilityService
    {
      match session
      case None => unchanged(utilityService)
      case Some(s) =>
        && utilityService.playerStats == StatsAfter(old(utilityService.playerStats), s, now)
        && utilityService.recentSessions == PushRecent(old(utilityService.recentSessions), s)
    }

    /** What `endGame()` leaves behind: completed, result shown, timer stopped, session handed to the store. */
    twostate predicate GameOver(now: real)
      reads this, utilityService
    {
      && gameState == Completed
      && showingResult
      && !timerActive
      && Handed(currentSession, now)
    }

    /** The game flow is as it was: same state, result sheet, timer, scheduled starts and store. */
    twostate predicate FlowKept()
      reads this, utilityService
    {
      && gameState == old(gameState) && showingResult == old(showingResult)
      && timerActive == old(timerActive) && pendingStarts == old(pendingStarts)
      && unchanged(utilityService)
    }

    /**
      `init()`: a controller at the menu. `hasLaunchedBefore` is the stored
      first-launch flag; onboarding is shown when it is unset.
     */
    constructor (service: UtilityService, hasLaunchedBefore: bool)
      requires service.Valid()
      ensures Valid()
      ensures utilityService == service
      ensures currentSession.None? && gameState == Menu
      ensures timeRemaining == 0.0 && gestureCount == 0 && !showingResult
      ensures showingOnboarding == !hasLaunchedBefore
      ensures !timerActive && challengeStartTime.None? && pendingStarts == 0
    {
      utilityService := service;
      currentSession := None;
      gameState := Menu;
      timeRemaining := 0.0;
      gestureCount := 0;
      showingResult := false;
      showingOnboarding := !hasLaunchedBefore;
      timerActive := false;
      challengeStartTime := None;
      pendingStarts := 0;
    }

    /** `completeOnboarding()`. */
    method CompleteOnboarding()
      modifies this
      ensures !showingOnboarding && gameState == Menu
      ensures currentSession == old(currentSession) && timeRemaining == old(timeRemaining)
      ensures gestureCount == old(gestureCount) && showingResult == old(showingResult)
      ensures timerActive == old(timerActive) && challengeStartTime == old(challengeStartTime)
      ensures pendingStarts == old(pendingStarts)
    {
      showingOnboarding := false;
      gameState := Menu;
    }

    // -------------------------------------------------------------------------
    // Game flow

    /** `startGame(level:)`: a fresh session at `level`, playing, its first challenge started. */
    method StartGame(level: int, now: real)
      requires Valid() && level >= -5
      modifies this, utilityService
      ensures Valid()
      ensures currentSession.Some?
      ensures var s := currentSession.value;
        && s == InitialSession(level, now, s.challenges)
        && Generated(level, s.challenges)
      ensures |currentSession.value.challenges| > 0 ==>
        && gameState == Playing
        && timeRemaining == currentSession.value.challenges[0].timeLimit
        && gestureCount == 0 && challengeStartTime == Some(now) && timerActive
        && showingResult == old(showingResult)
        && unchanged(utilityService)
      ensures |currentSession.value.challenges| == 0 ==>
        && GameOver(now)
        && timeRemaining == old(timeRemaining) && gestureCount == old(gestureCount)
        && challengeStartTime == old(challengeStartTime)
      ensures pendingStarts == old(pendingStarts) && showingOnboarding == old(showingOnboarding)
    {
      var s := NewSession(level, now);
      currentSession := Some(s);
      gameState := Playing;
      StartCurrentChallenge(now);
    }

    /** `pauseGame()`: paused, timer stopped; the session and the count are untouched. */
    method PauseGame()
      modifies this
      ensures gameState == Paused && !timerActive
      ensures currentSession == old(currentSession) && gestureCount == old(gestureCount)
      ensures timeRemaining == old(timeRemaining) && challengeStartTime == old(challengeStartTime)
      ensures showingResult == old(showingResult) && pendingStarts == old(pendingStarts)
      ensures showingOnboarding == old(showingOnboarding)
    {
      gameState := Paused;
      timerActive := false;
    }

    /** `resumeGame()`: playing, timer running again; the session and the count are untouched. */
    method ResumeGame()
      modifies this
      ensures gameState == Playing && timerActive
      ensures currentSession == old(currentSession) && gestureCount == old(gestureCount)
      ensures timeRemaining == old(timeRemaining) && challengeStartTime == old(challengeStartTime)
      ensures showingResult == old(showingResult) && pendingStarts == old(pendingStarts)
      ensures showingOnboarding == old(showingOnboarding)
    {
      gameState := Playing;
      timerActive := true;
    }

    /** `endGame()`: timer stopped, completed, the session (if any) recorded, the result shown. */
    method EndGame(now: real)
      requires Valid()
      modifies this, utilityService
      ensures Valid()
      ensures GameOver(now)
      ensures currentSession == old(currentSession) && gestureCount == old(gestureCount)
      ensures timeRemaining == old(timeRemaining) && challengeStartTime == old(challengeStartTime)
      ensures pendingStarts == old(pendingStarts) && showingOnboarding == old(showingOnboarding)
    {
      timerActive := false;
      gameState := Completed;
      if currentSession.Some? {
        utilityService.RecordSession(currentSession.value, now);
      }
      showingResult := true;
    }

    /** `restartGame()`: a new game at the current session's level, or at level 1 without one. */
    method RestartGame(now: real)
      requires Valid()
      modifies this, utilityService
      ensures Valid()
      ensures var level := if old(currentSession).Some? then old(currentSession).value.level else 1;
        && currentSession.Some?
        && currentSession.value == InitialSession(level, now, currentSession.value.challenges)
        && Generated(level, currentSession.value.challenges)
      ensures |currentSession.value.challenges| > 0 ==>
        && gameState == Playing
        && timeRemaining == currentSession.value.challenges[0].timeLimit
        && gestureCount == 0 && challengeStartTime == Some(now) && timerActive
        && showingResult == old(showingResult)
        && unchanged(utilityService)
      ensures |currentSession.value.challenges| == 0 ==>
        && GameOver(now)
        && timeRemaining == old(timeRemaining) && gestureCount == old(gestureCount)
        && challengeStartTime == old(challengeStartTime)
      ensures pendingStarts == old(pendingStarts) && showingOnboarding == old(showingOnboarding)
    {
      timerActive := false;
      if currentSession.Some? {
        StartGame(currentSession.value.level, now);
      } else {
        StartGame(1, now);
      }
    }

    /** `returnToMenu()`: no session, at the menu, result hidden, challenge state cleared. */
    method ReturnToMenu()
      requires Valid()
      modifies this
      ensures Valid()
      ensures currentSession.None? && gameState == Menu && !showingResult && !timerActive
      ensures timeRemaining == 0.0 && gestureCount == 0 && challengeStartTime.None?
      ensures pendingStarts == old(pendingStarts) && showingOnboarding == old(showingOnboarding)
    {
      timerActive := false;
      currentSession := None;
      gameState := Menu;
      showingResult := false;
      ResetChallengeState();
    }

    /** `resetChallengeState()`. */
    method ResetChallengeState()
      modifies this
      ensures timeRemaining == 0.0 && gestureCount == 0 && challengeStartTime.None?
      ensures currentSession == old(currentSession) && gameState == old(gameState)
      ensures showingResult == old(showingResult) && timerActive == old(timerActive)
      ensures pendingStarts == old(pendingStarts) && showingOnboarding == old(showingOnboarding)
    {
      timeRemaining := 0.0;
      gestureCount := 0;
      challengeStartTime := None;
    }

    // -------------------------------------------------------------------------
    // Challenge management

    /**
      `startCurrentChallenge()`: arms the current challenge (full time, count
      reset, start stamped, timer running), or ends the game when none is left.
     */
    method StartCurrentChallenge(now: real)
      requires Valid()
      modifies this, utilityService
      ensures Valid()
      ensures currentSession == old(currentSession)
      ensures old(Current()).Some? ==>
        && timeRemaining == old(Current()).value.timeLimit
        && gestureCount == 0 && challengeStartTime == Some(now) && timerActive
        && gameState == old(gameState) && showingResult == old(showingResult)
        && unchanged(utilityService)
      ensures old(Current()).None? ==>
        && GameOver(now)
        && timeRemaining == old(timeRemaining) && gestureCount == old(gestureCount)
        && challengeStartTime == old(challengeStartTime)
      ensures pendingStarts == old(pendingStarts) && showingOnboarding == old(showingOnboarding)
    {
      var challenge := Current();
      if challenge.None? {
        EndGame(now);
        return;
      }
      timeRemaining := challenge.value.timeLimit;
      gestureCount := 0;
      challengeStartTime := Some(now);
      timerActive := true;
    }

    /**
      The private `completeCurrentChallenge()`: when a challenge is running and
      its start is known, completes it on the session with the elapsed time and
      the clamped accuracy, stops the timer, then either ends the game (session
      completed) or schedules the next challenge one second ahead.
     */
    method CompleteCurrentChallenge(now: real)
      requires Valid()
      modifies this, utilityService
      ensures Valid()
      ensures old(Current()).None? || old(challengeStartTime).None? ==>
        && currentSession == old(currentSession) && gameState == old(gameState)
        && timerActive == old(timerActive) && showingResult == old(showingResult)
        && pendingStarts == old(pendingStarts) && unchanged(utilityService)
      ensures old(Current()).Some? && old(challengeStartTime).Some? ==>
        var c := old(Current()).value;
        && currentSession == Some(Session.CompleteCurrentChallenge(old(currentSession).value,
             now - old(challengeStartTime).value, ClampedAccuracy(old(gestureCount), c.targetCount), now))
        && !timerActive
        && (currentSession.value.isCompleted ==> GameOver(now) && pendingStarts == old(pendingStarts))
        && (!currentSession.value.isCompleted ==>
              && pendingStarts == old(pendingStarts) + 1 && gameState == old(gameState)
              && showingResult == old(showingResult) && unchanged(utilityService))
      ensures gestureCount == old(gestureCount) && timeRemaining == old(timeRemaining)
      ensures challengeStartTime == old(challengeStartTime) && showingOnboarding == old(showingOnboarding)
    {
      var challenge := Current();
      if challenge.None? || challengeStartTime.None? {
        return;
      }
      var session := currentSession.value;
      var completionTime := now - challengeStartTime.value;
      var accuracy := ClampedAccuracy(gestureCount, challenge.value.targetCount);
      CompletePreservesInv(session, completionTime, accuracy, now);
      session := Session.CompleteCurrentChallenge(session, completionTime, accuracy, now);
      currentSession := Some(session);
      timerActive := false;
      if session.isCompleted {
        EndGame(now);
      } else {
        pendingStarts := pendingStarts + 1;
      }
    }

    /** Delivery of one scheduled `startCurrentChallenge()`; nothing happens when none is pending. */
    method RunPendingStart(now: real)
      requires Valid()
      modifies this, utilityService
      ensures Valid()
      ensures old(pendingStarts) == 0 ==>
        && gameState == old(gameState) && showingResult == old(showingResult)
        && timerActive == old(timerActive) && timeRemaining == old(timeRemaining)
        && gestureCount == old(gestureCount) && challengeStartTime == old(challengeStartTime)
        && pendingStarts == 0 && unchanged(utilityService)
      ensures old(pendingStarts) > 0 ==> pendingStarts == old(pendingStarts) - 1
      ensures old(pendingStarts) > 0 && old(Current()).Some? ==>
        && timeRemaining == old(Current()).value.timeLimit
        && gestureCount == 0 && challengeStartTime == Some(now) && timerActive
        && gameState == old(gameState) && showingResult == old(showingResult)
        && unchanged(utilityService)
      ensures old(pendingStarts) > 0 && old(Current()).None? ==>
        && GameOver(now)
        && timeRemaining == old(timeRemaining) && gestureCount == old(gestureCount)
        && challengeStartTime == old(challengeStartTime)
      ensures currentSession == old(currentSession) && showingOnboarding == old(showingOnboarding)
    {
      if pendingStarts > 0 {
        pendingStarts := pendingStarts - 1;
        StartCurrentChallenge(now);
      }
    }

    // -------------------------------------------------------------------------
    // Gestures and time

    /**
      `handleGesture(_:)`: ignored unless playing with a challenge left;
      otherwise recorded on the session as correct exactly when it matches the
      challenge, a correct one is counted, and reaching the target completes
      the challenge, always at full accuracy.
     */
    method HandleGesture(g: GestureType, now: real)
      requires Valid()
      modifies this, utilityService
      ensures Valid()
      ensures old(gameState) != Playing || old(Current()).None? ==>
        currentSession == old(currentSession) && gestureCount == old(gestureCount) && FlowKept()
      ensures old(gameState) == Playing && old(Current()).Some? ==>
        var c := old(Current()).value;
        var isCorrect := g == c.gestureType;
        var recorded := RecordGesture(old(currentSession).value, isCorrect);
        && gestureCount == (if isCorrect then old(gestureCount) + 1 else old(gestureCount))
        && (!isCorrect || gestureCount < c.targetCount || old(challengeStartTime).None? ==>
              currentSession == Some(recorded) && FlowKept())
        && (isCorrect && gestureCount >= c.targetCount && old(challengeStartTime).Some? ==>
              && currentSession == Some(Session.CompleteCurrentChallenge(recorded,
                   now - old(challengeStartTime).value, 1.0, now))
              && !timerActive
              && (currentSession.value.isCompleted ==> GameOver(now) && pendingStarts == old(pendingStarts))
              && (!currentSession.value.isCompleted ==>
                    && pendingStarts == old(pendingStarts) + 1
                    && gameState == old(gameState) && showingResult == old(showingResult)
                    && unchanged(utilityService)))
      ensures timeRemaining == old(timeRemaining) && challengeStartTime == old(challengeStartTime)
      ensures showingOnboarding == old(showingOnboarding)
    {
      var challenge := Current();
      if gameState != Playing || challenge.None? {
        return;
      }
      var isCorrect := g == challenge.value.gestureType;
      var session := currentSession.value;
      RecordPreservesInv(session, isCorrect);
      var recorded := RecordGesture(session, isCorrect);
      assert recorded.challenges == session.challenges;
      assert recorded.currentChallengeIndex == session.currentChallengeIndex;
      currentSession := Some(recorded);
      assert Current() == challenge;
      if isCorrect {
        CountCorrectGesture(now);
      }
    }

    /**
      The correct-gesture arm of `handleGesture(_:)`: one more gesture
      counted, and the challenge completed at full accuracy once the count
      reaches its target.
     */
    method CountCorrectGesture(now: real)
      requires Valid() && Current().Some?
      modifies this, utilityService
      ensures Valid()
      ensures gestureCount == old(gestureCount) + 1
      ensures gestureCount < old(Current()).value.targetCount || old(challengeStartTime).None? ==>
        currentSession == old(currentSession) && FlowKept()
      ensures gestureCount >= old(Current()).value.targetCount && old(challengeStartTime).Some? ==>
        && currentSession == Some(Session.CompleteCurrentChallenge(old(currentSession).value,
             now - old(challengeStartTime).value, 1.0, now))
        && !timerActive
        && (currentSession.value.isCompleted ==> GameOver(now) && pendingStarts == old(pendingStarts))
        && (!currentSession.value.isCompleted ==>
              && pendingStarts == old(pendingStarts) + 1
              && gameState == old(gameState) && showingResult == old(showingResult)
              && unchanged(utilityService))
      ensures timeRemaining == old(timeRemaining) && challengeStartTime == old(challengeStartTime)
      ensures showingOnboarding == old(showingOnboarding)
    {
      var target := currentSession.value.challenges[currentSession.value.currentChallengeIndex].targetCount;
      gestureCount := gestureCount + 1;
      if gestureCount >= target {
        CompleteCurrentChallenge(now);
      }
    }

    /** One firing of the 0.1 s timer: a tenth of a second less, and time up at zero. */
    method Tick(now: real)
      requires Valid()
      modifies this, utilityService
      ensures Valid()
      ensures !old(timerActive) ==>
        && currentSession == old(currentSession) && timeRemaining == old(timeRemaining)
        && gameState == old(gameState) && showingResult == old(showingResult) && !timerActive
        && pendingStarts == old(pendingStarts) && unchanged(utilityService)
      ensures old(timerActive) ==> timeRemaining == old(timeRemaining) - 0.1
      ensures (old(timerActive)
          && (old(timeRemaining) - 0.1 > 0.0 || old(Current()).None? || old(challengeStartTime).None?)) ==>
        && currentSession == old(currentSession) && timerActive
        && gameState == old(gameState) && showingResult == old(showingResult)
        && pendingStarts == old(pendingStarts) && unchanged(utilityService)
      ensures (old(timerActive) && old(timeRemaining) - 0.1 <= 0.0
          && old(Current()).Some? && old(challengeStartTime).Some?) ==>
        var c := old(Current()).value;
        && currentSession == Some(Session.CompleteCurrentChallenge(old(currentSession).value,
             now - old(challengeStartTime).value, ClampedAccuracy(old(gestureCount), c.targetCount), now))
        && !timerActive
        && (currentSession.value.isCompleted ==> GameOver(now) && pendingStarts == old(pendingStarts))
        && (!currentSession.value.isCompleted ==>
              && pendingStarts == old(pendingStarts) + 1
              && gameState == old(gameState) && showingResult == old(showingResult)
              && unchanged(utilityService))
      ensures gestureCount == old(gestureCount) && challengeStartTime == old(challengeStartTime)
      ensures showingOnboarding == old(showingOnboarding)
    {
      if !timerActive {
        return;
      }
      ghost var challenge := Current();
      timeRemaining := timeRemaining - 0.1;
      assert Current() == challenge;
      if timeRemaining <= 0.0 {
        TimeUp(now);
      }
    }

    /**
      `timeUp()`: the same guard and the same effect as the private
      `completeCurrentChallenge()` (same session call, same clamped accuracy,
      same ending or scheduling), whatever the count has reached.
     */
    method TimeUp(now: real)
      requires Valid()
      modifies this, utilityService
      ensures Valid()
      ensures old(Current()).None? || old(challengeStartTime).None? ==>
        && currentSession == old(currentSession) && gameState == old(gameState)
        && timerActive == old(timerActive) && showingResult == old(showingResult)
        && pendingStarts == old(pendingStarts) && unchanged(utilityService)
      ensures old(Current()).Some? && old(challengeStartTime).Some? ==>
        var c := old(Current()).value;
        && currentSession == Some(Session.CompleteCurrentChallenge(old(currentSession).value,
             now - old(challengeStartTime).value, ClampedAccuracy(old(gestureCount), c.targetCount), now))
        && !timerActive
        && (currentSession.value.isCompleted ==> GameOver(now) && pendingStarts == old(pendingStarts))
        && (!currentSession.value.isCompleted ==>
              && pendingStarts == old(pendingStarts) + 1 && gameState == old(gameState)
              && showingResult == old(showingResult) && unchanged(utilityService))
      ensures gestureCount == old(gestureCount) && timeRemaining == old(timeRemaining)
      ensures challengeStartTime == old(challengeStartTime) && showingOnboarding == old(showingOnboarding)
    {
      CompleteCurrentChallenge(now);
    }

    // -------------------------------------------------------------------------
    // Read-only views

    /** `progressPercentage`: the session's progress, 0 without a session; always within [0, 1]. */
    function ProgressPercentage(): (p: real)
      reads this, utilityService
      requires Valid()
      ensures currentSession.None? ==> p == 0.0
      ensures currentSession.Some? ==> p == Progress(currentSession.value)
      ensures 0.0 <= p <= 1.0
    {
      match currentSession
      case None => 0.0
      case Some(s) => Progress(s)
    }

    /**
      `currentChallengeProgress`: counted gestures over the target, 0 without a
      current challenge; reaches 1 exactly when the target is met.
     */
    function CurrentChallengeProgress(): (p: real)
      reads this, utilityService
      requires Valid()
      ensures Current().None? ==> p == 0.0
      ensures p >= 0.0
      ensures Current().Some? ==> (p >= 1.0 <==> gestureCount >= Current().value.targetCount)
    {
      match Current()
      case None => 0.0
      case Some(c) =>
        assert ChallengeInv(c, false) by {
          var s := currentSession.value;
          assert c == s.challenges[s.currentChallengeIndex];
        }
        gestureCount as real / c.targetCount as real
    }
  }
}
