# Gesture Quest game logic in Dafny

This project models the game logic of the gesture-training game
`dafoma_29` (a SwiftUI app) and proves properties of it. The player works
through a session of challenges. Each challenge asks for a number of
repetitions of one of ten gestures within a time limit. The session
accumulates a score from difficulty, remaining time and accuracy. When the
game ends, the session is folded into the player's cumulative statistics and
put first in a capped list of recent sessions. The statistics drive the
recommended level, the achievements, the performance trend and the
end-of-game analysis.

The modules follow the source files:

- `Common` (`common.dfy`): Swift optionals, `min`/`max`, and `Int(_:)` on a
  `Double`. `Int(_:)` truncates toward zero.
- `Gestures` (`gestures.dfy`), for `Models/GestureType.swift`: the gesture
  catalogue, the difficulties, the eligible pool of a level, and the
  challenge record.
- `Session` (`session.dfy`), for `Models/GameSession.swift`: challenge
  generation, the session getters, scoring, completion, gesture recording,
  the session invariant and event replay.
  - Swift structs are values, so each `mutating func` without a loop is a
    function from the old session to the new one.
  - `generateChallenges` keeps its loop, as a method.
- `Stats` (`stats.dfy`), also for `Models/GameSession.swift`: the per-gesture
  statistics update and `PlayerStats.updateWith`.
  - `PlayerStats.updateWith` is a method with two loops. It is proved
    against the specification function `StatsAfter`.
- `Sorting` (`sorting.dfy`): the `sorted(by:)` calls on a single real-valued
  key, as a stable insertion sort with sortedness and permutation proved.
- `Service` (`utility_service.dfy`), for `Services/UtilityService.swift`: the
  store as a class with fields `playerStats` and `recentSessions`, and its
  analytics.
- `GameController` (`game_view_model.dfy`), for
  `ViewModels/GameViewModel.swift`: the controller as a class whose methods
  step its fields.
- `Results` (`result_view_model.dfy`), for
  `ViewModels/ResultViewModel.swift`: ratings, advice, the comparison with
  the stored statistics and the per-challenge breakdown.

Outside inputs become parameters:

- `Date()` is the parameter `now`, in seconds.
- `randomElement()` is a nondeterministic choice from the eligible pool.
- `UtilityService.shared` is passed to the view-model constructors.
- The stored first-launch flag is a constructor parameter.
- The repeating 0.1 s timer is the flag `timerActive` plus the method
  `Tick`, called once per firing.
- The one-second `asyncAfter` that starts the next challenge is the counter
  `pendingStarts` plus the method `RunPendingStart`, called once per
  delivery.
- Bodies posted to the main queue run synchronously.
- `Double` is `real`.
  - The initial `bestTime = .infinity` is `None`.
  - The time per challenge of a session without challenges is an infinity or
    NaN, kept by the `Speed` datatype.

Behaviour of the code worth noting:

- The score bonuses use `Int(_:)`, which truncates toward zero. A level-1
  tap done in one second at full accuracy scores 285, and six of them score
  1710.
- The challenge count is `min(5 + level, 15)`. It has an upper bound only.
  Below level 0 it is under 5, and it is 0 at level -5. Below level -5 the
  Swift range `0..<n` traps, hence `GenerateChallenges` requires
  `level >= -5`.
- Only the first two branches of the recommended level are capped at 20.
  The last branch, `max(levelsCompleted, 1)`, is not capped.
- "Perfect" needs `accuracy >= 1.0` and a time of at most half the limit.
- The gesture-statistics entry is created before the missing-data guard of
  `GestureStats.updateWith` runs. A completed challenge without data
  therefore still adds a default entry.
- The player's average accuracy is the unweighted mean of the per-gesture
  averages.

The controller model keeps three behaviours of the code:

- Gestures are still accepted while the next challenge waits for its
  one-second delayed start. They count toward the next challenge, with the
  previous challenge's start time.
- A delayed start delivered after `returnToMenu` finds no session and runs
  `endGame`.
- A challenge completed by reaching its target always has accuracy 1.0.

## Model

| member | source | states |
|---|---|---|
| Gestures.AllGesturesComplete | dafoma_29/Models/GestureType.swift:11-21 | every gesture occurs in `allCases`, and no gesture occurs twice |
| Gestures.RawValue | dafoma_29/Models/GestureType.swift:12-21 | each raw value is a non-empty string |
| Gestures.RawValueInjective | dafoma_29/Models/GestureType.swift:12-21 | two gestures have the same raw value iff they are the same gesture, so keying statistics by raw value loses nothing |
| Gestures.Id | dafoma_29/Models/GestureType.swift:23 | `id` equals the raw value |
| Gestures.Difficulty | dafoma_29/Models/GestureType.swift:75-86 | difficulty is between 1 and 4; it is 1 exactly for tap and double tap, and 4 exactly for rotate |
| Gestures.DifficultyCap | dafoma_29/Models/GameSession.swift:83 | `min(level, 4)` is at most 4 and at most the level |
| Gestures.Eligible | dafoma_29/Models/GameSession.swift:83 | a gesture is in the pool iff its difficulty is at most `min(level, 4)` |
| Gestures.EligibleAmong | dafoma_29/Models/GameSession.swift:83 | the filter keeps exactly the listed gestures within the cap |
| Gestures.EligibleNonEmpty | dafoma_29/Models/GestureType.swift:77-78 | from level 1 on, tap and double tap are eligible, so the pool is never empty |
| Gestures.EligibleEmptyBelowOne | dafoma_29/Models/GameSession.swift:83-84 | below level 1 the pool is empty, which is when the `?? .tap` fallback applies |
| Gestures.NoneEligibleAmong | dafoma_29/Models/GameSession.swift:83 | below level 1 the filter of any gesture list is empty |
| Gestures.RotateEligibility | dafoma_29/Models/GestureType.swift:83-84 | rotate is eligible iff the level is at least 4 |
| Gestures.NewChallenge | dafoma_29/Models/GestureType.swift:104-119 | a new challenge keeps type, target, limit and level; it is not completed and has no completion time or accuracy |
| Session.ChallengeCount | dafoma_29/Models/GameSession.swift:80 | the count is at most 15, at least 6 from level 1 on, and exactly 15 from level 10 on |
| Session.TargetCount | dafoma_29/Models/GameSession.swift:86 | the target is at least 1 and at least the level |
| Session.TimeLimitFor | dafoma_29/Models/GameSession.swift:87 | the limit is at least 3 s; it is `10 - 0.5*level` up to level 14 and 3 s from level 14 on |
| Session.GenerateChallenges | dafoma_29/Models/GameSession.swift:78-100 | returns `min(5+level, 15)` challenges; challenge i has target `max(1, level + i/2)`, the level's limit, no completion data, and an eligible gesture, or tap when none is eligible |
| Session.GeneratedWithinCap | dafoma_29/Models/GameSession.swift:80-87 | from level 1 on: 6 to 15 challenges, every gesture within the difficulty cap, targets and limits as the formulas say |
| Session.GeneratedBelowOneIsTap | dafoma_29/Models/GameSession.swift:83-84 | below level 1 every generated challenge is a tap |
| Session.InitialSession | dafoma_29/Models/GameSession.swift:10-26 | a new session starts at `now` with index, score and counters at zero, not completed and without end time |
| Session.NewSession | dafoma_29/Models/GameSession.swift:22-26 | `init(level:)` generates the challenges and satisfies the session invariant |
| Session.Duration | dafoma_29/Models/GameSession.swift:28-33 | duration is end minus start once stamped, otherwise now minus start |
| Session.Accuracy | dafoma_29/Models/GameSession.swift:35-38 | accuracy is 0 without gestures, lies in [0, 1] when correct gestures do not exceed all gestures, and is 1 when all were correct |
| Session.CurrentChallenge | dafoma_29/Models/GameSession.swift:40-43 | there is a current challenge iff the index is below the count, and it is the challenge at the index |
| Session.Progress | dafoma_29/Models/GameSession.swift:45-48 | progress is 0 for an empty list, lies in [0, 1] while the index is within the list, and is 1 when the list is used up |
| Session.ChallengeScore | dafoma_29/Models/GameSession.swift:58-62 | points are at least `100*difficulty` for a non-negative accuracy, and at most `100*difficulty + 100` with no time left and accuracy at most 1 |
| Session.ScoreMonotonic | dafoma_29/Models/GameSession.swift:58-62 | for the same gesture, finishing sooner and more accurately never scores less |
| Session.ScoreExampleLevelOne | dafoma_29/Models/GameSession.swift:58-62 | the level-1 limit is 9.5 s, and a tap done in 1 s at accuracy 1 scores 285 |
| Session.CompleteCurrentChallenge | dafoma_29/Models/GameSession.swift:50-69 | past the end nothing changes; otherwise only the current challenge is marked done with the given time and accuracy, the score grows by the points (by at least 100 for a non-negative accuracy), the index grows by exactly 1, and after the last challenge the session is completed with `endTime = now` |
| Session.RecordGesture | dafoma_29/Models/GameSession.swift:71-76 | total gestures grow by 1, correct gestures grow by 1 exactly when the gesture is correct, and nothing else changes |
| Session.InitialSessionInv | dafoma_29/Models/GameSession.swift:15-26 | a freshly generated session satisfies the session invariant |
| Session.CompletePreservesInv | dafoma_29/Models/GameSession.swift:50-69 | completion with a non-negative accuracy keeps the invariant: index within the list, completed iff a non-empty list is used up, `endTime` set iff completed, exactly the passed challenges carry completion data |
| Session.RecordPreservesInv | dafoma_29/Models/GameSession.swift:71-76 | recording a gesture keeps the invariant, including `correctGestures <= totalGestures` |
| Session.ReplayKeepsInv | dafoma_29/Models/GameSession.swift:50-76 | after any sequence of completions with accuracy in [0, 1] and gestures: the invariant holds, the list length is unchanged, and neither index nor score decreases |
| Session.CompletedIsFinal | dafoma_29/Models/GameSession.swift:51 | once completed, further completions change nothing |
| Session.ReplayCompletions | dafoma_29/Models/GameSession.swift:50-69 | n identical completions advance the index by n and add n times the points; the last one stamps `endTime` |
| Session.LevelOneExample | dafoma_29/Models/GameSession.swift:50-69 | six taps at level 1, each done in 1 s at accuracy 1, complete the session with score 1710 |
| Stats.UpdateGestureStats | dafoma_29/Models/GameSession.swift:147-158 | with a missing time or accuracy nothing changes; otherwise the count grows by 1, the totals grow, averages are totals over the count, and the best time is the smaller of old and new |
| Stats.UpdateGestureStatsKeepsInv | dafoma_29/Models/GameSession.swift:139-158 | the update keeps averages equal to totals over the count and the best time present once performed |
| Stats.UpdateGestureStatsKeepsRange | dafoma_29/Models/GameSession.swift:151-153 | with accuracies in [0, 1], the average accuracy stays in [0, 1] |
| Stats.FoldGestureStatsKeys | dafoma_29/Models/GameSession.swift:125-131 | the keys afterwards are the old keys plus those of the completed challenges, even when an update was skipped; other entries are unchanged |
| Stats.NoCompletedNoChange | dafoma_29/Models/GameSession.swift:125-131 | a session without completed challenges leaves the dictionary untouched |
| Stats.FoldGestureStatsKeepsInv | dafoma_29/Models/GameSession.swift:125-131 | every entry keeps the running-aggregate invariant through the loop |
| Stats.SumAverageAccuracyBounds | dafoma_29/Models/GameSession.swift:134 | with averages in [0, 1], the sum lies between 0 and the number of entries |
| Stats.MeanAverageAccuracyInRange | dafoma_29/Models/GameSession.swift:134-135 | the mean of averages in [0, 1] lies in [0, 1] |
| Stats.ReduceAverageAccuracy | dafoma_29/Models/GameSession.swift:134 | the `reduce` over the dictionary values yields the sum of the per-gesture averages, whatever order the keys come in |
| Stats.UpdatePlayerStats | dafoma_29/Models/GameSession.swift:113-136 | the loops compute `StatsAfter`: sessions +1, score added, best score is the max, `levelsCompleted` changes only for a completed session and never decreases, last played is `now` |
| Stats.DefaultStatsInv | dafoma_29/Models/GameSession.swift:103-111 | the default statistics satisfy the store invariant |
| Stats.StatsAfterKeepsInv | dafoma_29/Models/GameSession.swift:113-136 | folding a session with a non-negative score keeps the session count, total score, best score and levels non-negative and every entry consistent |
| Stats.StatsAfterGestureStats | dafoma_29/Models/GameSession.swift:124-131 | only keys of completed challenges are added or touched; a session with none leaves `gestureStats` untouched |
| Stats.StatsAfterAverageAccuracy | dafoma_29/Models/GameSession.swift:133-135 | the average accuracy is 0 with no entries, and otherwise times the entry count equals the sum of per-gesture averages |
| Sorting.Insert | dafoma_29/Services/UtilityService.swift:74 | insertion adds exactly one element and keeps a sorted list sorted |
| Sorting.SortBy | dafoma_29/Services/UtilityService.swift:74 | the result is a permutation of the input, sorted by the key |
| Service.PushRecent | dafoma_29/Services/UtilityService.swift:59-64 | the new list has length `min(old+1, 50)`, starts with the session, and continues with the old leading entries in order |
| Service.PushRecentBounded | dafoma_29/Services/UtilityService.swift:59-64 | the list never exceeds 50, keeps length 50 once full, and is a plain prepend below the cap |
| Service.SumAccuracy | dafoma_29/Services/UtilityService.swift:127 | the sum of accuracies lies between 0 and the number of sessions |
| Service.RecentAccuracy | dafoma_29/Services/UtilityService.swift:126-127 | the mean over the first five is 0 with no sessions and lies in [0, 1] |
| Service.RecentAccuracyIgnoresOlder | dafoma_29/Services/UtilityService.swift:126 | sessions after the fifth do not affect the mean |
| Service.EntriesAmong | dafoma_29/Services/UtilityService.swift:86-93 | one record per gesture with statistics, read from its entry, with no gesture twice |
| Service.InfosPointwise | dafoma_29/Services/UtilityService.swift:138-209 | one unlocked record per achievement, position by position |
| Service.Unlock | dafoma_29/Services/UtilityService.swift:142-149 | one threshold check appends the record exactly when the threshold holds |
| Service.UnlockedMembership | dafoma_29/Services/UtilityService.swift:138-209 | an achievement is listed iff its threshold holds |
| Service.UnlockedOrder | dafoma_29/Services/UtilityService.swift:138-209 | the listed achievements follow the fixed checking order |
| Service.UnlockedAchievements | dafoma_29/Services/UtilityService.swift:138-209 | each of the seven achievements is listed iff its threshold holds, in the fixed checking order |
| Service.AchievementTiers | dafoma_29/Services/UtilityService.swift:142-206 | Gesture Legend implies Score Master, Gesture Enthusiast implies Dedicated Player, Challenge Conqueror implies Level Explorer |
| Service.AchievementInfo | dafoma_29/Services/UtilityService.swift:143-205 | every record is unlocked |
| Service.UtilityService.constructor | dafoma_29/Services/UtilityService.swift:14-24 | a first launch starts from default statistics and an empty list |
| Service.UtilityService.RecordSession | dafoma_29/Services/UtilityService.swift:56-69 | the statistics become `StatsAfter` of the session, the session is inserted first, the list is capped at 50 with the shift stated, and the store stays valid for every session with a non-negative score |
| Service.UtilityService.ResetAllData | dafoma_29/Services/UtilityService.swift:213-220 | the statistics are the defaults and the list is empty |
| Service.UtilityService.RecommendedLevel | dafoma_29/Services/UtilityService.swift:125-136 | above 0.9 the result is `min(lc+2, 20)`, above 0.7 it is `min(lc+1, 20)`, otherwise `max(lc, 1)`, also with no sessions; it is always at least 1 and exceeds 20 only in the uncapped last branch |
| Service.UtilityService.SessionsByStartTime | dafoma_29/Services/UtilityService.swift:74 | the sorted list is a permutation of the recent sessions with non-decreasing start times |
| Service.UtilityService.PerformanceTrend | dafoma_29/Services/UtilityService.swift:73-83 | one point per recent session, numbered 1 to n, with non-decreasing dates, carrying the sorted session's score, accuracy and start time |
| Service.UtilityService.GesturePerformances | dafoma_29/Services/UtilityService.swift:85-95 | exactly one record per gesture with statistics, read from its entry, sorted by descending accuracy |
| Service.UtilityService.GetAchievements | dafoma_29/Services/UtilityService.swift:138-209 | the seven appends produce the records of exactly the achievements whose thresholds hold, in order |
| GameController.ClampedAccuracy | dafoma_29/ViewModels/GameViewModel.swift:103-105 | the completion accuracy lies in [0, 1], is 1 iff the target is reached, and is otherwise the count over the target |
| GameController.GameViewModel.Current | dafoma_29/ViewModels/GameViewModel.swift:86 | there is a current challenge iff a session exists with its index below the count |
| GameController.GameViewModel.constructor | dafoma_29/ViewModels/GameViewModel.swift:13-35 | the controller starts at the menu without a session, and shows onboarding iff the first-launch flag is unset |
| GameController.GameViewModel.CompleteOnboarding | dafoma_29/ViewModels/GameViewModel.swift:199-202 | onboarding is hidden and the state is menu |
| GameController.GameViewModel.StartGame | dafoma_29/ViewModels/GameViewModel.swift:39-43 | a fresh session at the level is installed; with challenges, the state is playing and the first challenge is armed (its full time, count 0, start `now`, timer running, result sheet and store untouched); without any, the game ends at once and the time, count and start time are untouched; scheduled starts and onboarding are untouched |
| GameController.GameViewModel.PauseGame | dafoma_29/ViewModels/GameViewModel.swift:45-48 | the state is paused and the timer stopped; session and count are untouched |
| GameController.GameViewModel.ResumeGame | dafoma_29/ViewModels/GameViewModel.swift:50-53 | the state is playing and the timer running; session and count are untouched |
| GameController.GameViewModel.EndGame | dafoma_29/ViewModels/GameViewModel.swift:55-64 | the timer is stopped, the state is completed, the result is shown, and an existing session is recorded in the store |
| GameController.GameViewModel.RestartGame | dafoma_29/ViewModels/GameViewModel.swift:66-73 | a new game starts at the current session's level, or at level 1 without a session, with exactly the effect `startGame` has: the first challenge armed (its full time, count 0, start `now`, timer running, result sheet and store untouched), or the game ended with time, count and start time untouched; scheduled starts and onboarding are untouched |
| GameController.GameViewModel.ReturnToMenu | dafoma_29/ViewModels/GameViewModel.swift:75-81 | no session, state menu, result hidden, timer stopped, time and count 0, no start time |
| GameController.GameViewModel.ResetChallengeState | dafoma_29/ViewModels/GameViewModel.swift:206-210 | time and count are 0 and the start time is cleared |
| GameController.GameViewModel.StartCurrentChallenge | dafoma_29/ViewModels/GameViewModel.swift:85-95 | with a current challenge: time is its limit, count 0, start time `now`, timer running; without one: the game ends |
| GameController.GameViewModel.CompleteCurrentChallenge | dafoma_29/ViewModels/GameViewModel.swift:97-119 | without a challenge or start time nothing changes; otherwise the session completes the challenge with the elapsed time and clamped accuracy, the timer stops, and the game ends if the session is completed or else one delayed start is scheduled |
| GameController.GameViewModel.RunPendingStart | dafoma_29/ViewModels/GameViewModel.swift:115-117 | a scheduled start is consumed and runs `startCurrentChallenge`: the current challenge is armed with state, result sheet and store untouched, or the game ends with time, count and start time untouched; with none pending nothing changes |
| GameController.GameViewModel.HandleGesture | dafoma_29/ViewModels/GameViewModel.swift:123-146 | ignored unless playing with a challenge, leaving session, count, state, result sheet, timer, scheduled starts and store as they were; otherwise recorded as correct iff the type matches, only a correct gesture is counted, and below the target nothing else changes; reaching the target completes the challenge at accuracy 1, then ends the game or schedules the next start with state and result sheet untouched |
| GameController.GameViewModel.CountCorrectGesture | dafoma_29/ViewModels/GameViewModel.swift:130-140 | one more gesture is counted; below the target nothing else changes; at the target the challenge is completed at accuracy 1, then the game ends or the next start is scheduled |
| GameController.GameViewModel.Tick | dafoma_29/ViewModels/GameViewModel.swift:150-160 | without a timer nothing changes; with it, the time drops by 0.1; while time is left, or when `timeUp` finds no challenge or start time, nothing else changes and the timer keeps running; otherwise the challenge is completed with the clamped accuracy, the timer stops, and the game ends or the next start is scheduled with state, result sheet and store untouched |
| GameController.GameViewModel.TimeUp | dafoma_29/ViewModels/GameViewModel.swift:167-187 | the same guard and effect as the private completion: the session call with the clamped accuracy, then end or delayed start |
| GameController.GameViewModel.ProgressPercentage | dafoma_29/ViewModels/GameViewModel.swift:212-215 | 0 without a session, otherwise the session's progress; always in [0, 1] |
| GameController.GameViewModel.CurrentChallengeProgress | dafoma_29/ViewModels/GameViewModel.swift:217-220 | 0 without a challenge, never negative, and at least 1 iff the count has reached the target |
| Results.Quotient | dafoma_29/ViewModels/ResultViewModel.swift:65 | the time per challenge is the real quotient with challenges; without any it is plus infinity, minus infinity or NaN according to the sign of the duration |
| Results.RateAccuracy | dafoma_29/ViewModels/ResultViewModel.swift:53-62 | excellent from 0.9, good from 0.7, average from 0.5, otherwise needs improvement |
| Results.RateAccuracyMonotonic | dafoma_29/ViewModels/ResultViewModel.swift:53-62 | a higher accuracy never gets a worse rating |
| Results.RateSpeed | dafoma_29/ViewModels/ResultViewModel.swift:66-73 | fast up to 3 s per challenge, moderate up to 5 s, otherwise slow, with NaN slow |
| Results.RateSpeedByDuration | dafoma_29/ViewModels/ResultViewModel.swift:65-73 | with n challenges the rating is fast iff the duration is at most 3n, and slow iff it exceeds 5n |
| Results.RateSpeedWithoutChallenges | dafoma_29/ViewModels/ResultViewModel.swift:65-73 | without challenges only a negative duration rates fast; everything else rates slow |
| Results.Recommendations | dafoma_29/ViewModels/ResultViewModel.swift:92-119 | the list is never empty; it holds the messages of the rules that fire, in rule order, or the fallback pair when none fires |
| Results.GenerateRecommendations | dafoma_29/ViewModels/ResultViewModel.swift:92-119 | the appends produce exactly that list |
| Results.RecommendationContents | dafoma_29/ViewModels/ResultViewModel.swift:95-117 | each rule's message is present iff its rule holds, and the fallback iff no rule holds |
| Results.AccuracyAdviceExcludesPraise | dafoma_29/ViewModels/ResultViewModel.swift:95-108 | accuracy advice and praise never appear together, nor do speed advice and praise |
| Results.AverageScore | dafoma_29/ViewModels/ResultViewModel.swift:48-50 | 0 before the first session; otherwise, for a non-negative total, the truncated mean m satisfies `m*n <= total < (m+1)*n` |
| Results.TruncatedMean | dafoma_29/ViewModels/ResultViewModel.swift:48-50 | truncating a non-negative mean brackets the total between two multiples of the count |
| Results.BeatsAverageExactly | dafoma_29/ViewModels/ResultViewModel.swift:48-50 | with a non-negative total, beating the truncated mean is the same as `score * sessions > total` |
| Results.ChallengeBreakdown | dafoma_29/ViewModels/ResultViewModel.swift:122-134 | one result per challenge, numbered index + 1, with the challenge's fields and 0 for a missing time or accuracy |
| Results.PerformanceRating | dafoma_29/ViewModels/ResultViewModel.swift:225-239 | Incomplete iff not completed; Perfect needs accuracy at least 1 and time at most half the limit; Excellent needs 0.8 and 70 %; Good needs 0.6; the rest is Needs Practice |
| Results.BreakdownIncompleteExactlyAhead | dafoma_29/ViewModels/ResultViewModel.swift:122-134 | in a valid session, a challenge is labelled Incomplete iff the index has not passed it |
| Results.FullAccuracyRating | dafoma_29/ViewModels/ResultViewModel.swift:225-239 | a challenge completed at accuracy 1 is rated Perfect, Excellent or Good |
| Results.ResultViewModel.constructor | dafoma_29/ViewModels/ResultViewModel.swift:16 | the view model reads the given store |
| Results.ResultViewModel.GetPerformanceAnalysis | dafoma_29/ViewModels/ResultViewModel.swift:41-90 | personal best iff the score is strictly above the best score; improvement iff it is strictly above the truncated mean (0 without sessions); ratings and advice from accuracy and time per challenge; the next level is the store's recommendation, at least 1; with sessions on record, improvement iff `score * sessions > total`, since a valid store's total score is non-negative |

Proof helpers, with no behaviour of their own: `Stats.DivideWithinUnit`,
`Stats.Restrict`, `Stats.SumAverageAccuracyRemove`, `Service.InfosAppend`,
`Service.AppendPart`, `Results.DivideCompare`, `Results.ScaleBounds`,
`Results.MultiplyBounds`, `Results.RealProduct` and `Results.MultiplyMonotone`.

## Left out

- Service.UtilityService.RecordSession: promises a valid store only for a
  session with a non-negative score. The store invariant includes a
  non-negative total score. Every session the controller records satisfies
  the session invariant, whose score is non-negative.
- The `Views/` files are SwiftUI layout, animation and gesture capture. This
  includes the swipe-direction classifier, which uses `sqrt`/`atan2`, the
  level-unlock predicate and the time formatting.
- Persistence is left out: the JSON encoding of the statistics and the
  session list, and loading them at start-up. The store's constructor
  starts from the defaults.
- Writing the first-launch flag back to `UserDefaults` is left out. Reading
  it is the constructor parameter.
- Haptic feedback generators are device side effects.
- `getWeeklyProgress` is left out because it depends on `Calendar` day
  arithmetic.
- `generateShareText`, `shareScore` and `formatTime` build display strings.
  The model has no number formatting.
- `UUID` identifiers, colours, icons, display names and rating strings used
  only for display are left out.
- IEEE 754 rounding of `Double` is left out; the model uses exact reals.
  The time decrement therefore accumulates no error.
  - Infinities and NaN are modelled only where the code can produce them
    from its own arithmetic: `bestTime` and the time per challenge.
- Swift `Int` overflow traps are left out because integers are unbounded.
- GameController.GameViewModel.Tick: `startTimer` schedules a new timer without
  invalidating a running one. A repeated start can leave an orphaned timer
  that still fires. The model has one timer flag, so each firing decrements
  the same `timeRemaining` once.
- Timer firings that were already queued on the main thread when the timer
  was stopped are not modelled.
- Sorting: Swift's `sorted(by:)` does not promise an order among equal
  keys. The model sorts stably, and its contracts state only the
  permutation and the key order.
- `Session.GenerateChallenges` assumes `level >= -5`, because for lower
  levels the Swift range `0..<n` traps.
