/**
  The gesture catalogue and the challenge record (Models/GestureType.swift).

  Ten gesture kinds, each with a persistence key (its raw value) and a fixed
  difficulty from 1 to 4; a challenge asks for a number of repetitions of one
  gesture within a time limit and later records how it was completed.
 */
module Gestures {
  import opened Common

  datatype GestureType =
    | Tap | DoubleTap | LongPress
    | SwipeUp | SwipeDown | SwipeLeft | SwipeRight
    | Pinch | Rotate | Drag

  /** `GestureType.allCases`, in declaration order. */
  const AllGestures: seq<GestureType> :=
    [Tap, DoubleTap, LongPress, SwipeUp, SwipeDown, SwipeLeft, SwipeRight, Pinch, Rotate, Drag]

  /** Every gesture appears in the catalogue exactly once. */
  lemma AllGesturesComplete(g: GestureType)
    ensures g in AllGestures
    ensures forall i, j :: 0 <= i < j < |AllGestures| ==> AllGestures[i] != AllGestures[j]
  {
  }

  /** The string raw value, used as the key of the per-gesture statistics. */
  function RawValue(g: GestureType): (r: string)
    ensures |r| > 0
  {
    match g
    case Tap => "tap"
    case DoubleTap => "double_tap"
    case LongPress => "long_press"
    case SwipeUp => "swipe_up"
    case SwipeDown => "swipe_down"
    case SwipeLeft => "swipe_left"
    case SwipeRight => "swipe_right"
    case Pinch => "pinch"
    case Rotate => "rotate"
    case Drag => "drag"
  }

  /** `id` is the raw value itself. */
  function Id(g: GestureType): (r: string)
    ensures r == RawValue(g)
  {
    RawValue(g)
  }

  /** Distinct gestures have distinct raw values, so keying statistics by raw value loses nothing. */
  lemma RawValueInjective(g: GestureType, h: GestureType)
    ensures RawValue(g) == RawValue(h) <==> g == h
  {
    if g != h {
      assert RawValue(g) != RawValue(h) by {
        match g
        case Tap =>
        case DoubleTap =>
        case LongPress =>
        case SwipeUp =>
        case SwipeDown =>
        case SwipeLeft =>
        case SwipeRight =>
        case Pinch =>
        case Rotate =>
        case Drag =>
      }
    }
  }

  function Difficulty(g: GestureType): (d: int)
    ensures 1 <= d <= 4
    ensures d == 1 <==> g == Tap || g == DoubleTap
    ensures d == 4 <==> g == Rotate
  {
    match g
    case Tap | DoubleTap => 1
    case LongPress | SwipeUp | SwipeDown | SwipeLeft | SwipeRight => 2
    case Drag | Pinch => 3
    case Rotate => 4
  }

  /** The highest difficulty a level admits: `min(level, 4)`. */
  function DifficultyCap(level: int): (cap: int)
    ensures cap <= 4 && cap <= level
  {
    Min(level, 4)
  }

  /** `GestureType.allCases.filter { $0.difficulty <= min(level, 4) }`, in catalogue order. */
  function Eligible(level: int): (r: seq<GestureType>)
    ensures forall g :: g in r <==> Difficulty(g) <= DifficultyCap(level)
  {
    EligibleAmong(AllGestures, level)
  }

  function EligibleAmong(gs: seq<GestureType>, level: int): (r: seq<GestureType>)
    ensures forall g :: g in r <==> g in gs && Difficulty(g) <= DifficultyCap(level)
  {
    if gs == [] then []
    else if Difficulty(gs[0]) <= DifficultyCap(level) then [gs[0]] + EligibleAmong(gs[1..], level)
    else EligibleAmong(gs[1..], level)
  }

  /** For every level from 1 up, the two difficulty-1 gestures are eligible, so the pool is never empty. */
  lemma EligibleNonEmpty(level: int)
    requires level >= 1
    ensures Tap in Eligible(level) && DoubleTap in Eligible(level)
    ensures |Eligible(level)| > 0
  {
  }

  /** Below level 1 no gesture qualifies. */
  lemma EligibleEmptyBelowOne(level: int)
    requires level < 1
    ensures Eligible(level) == []
  {
    NoneEligibleAmong(AllGestures, level);
  }

  lemma {:induction false} NoneEligibleAmong(gs: seq<GestureType>, level: int)
    requires level < 1
    ensures EligibleAmong(gs, level) == []
  {
    if gs != [] {
      NoneEligibleAmong(gs[1..], level);
    }
  }

  /** Rotate, the only difficulty-4 gesture, enters the pool exactly from level 4 on. */
  lemma RotateEligibility(level: int)
    ensures Rotate in Eligible(level) <==> level >= 4
    ensures forall g :: g in Eligible(level) && level < 4 ==> g != Rotate
  {
  }

  /** `GestureChallenge`: the stored part of a challenge (its UUID is not modelled). */
  datatype Challenge = Challenge(
    gestureType: GestureType,
    targetCount: int,
    timeLimit: real,
    level: int,
    isCompleted: bool,
    completionTime: Option<real>,
    accuracy: Option<real>)

  /** The memberwise initialiser: no completion data yet. */
  function NewChallenge(gestureType: GestureType, targetCount: int, timeLimit: real, level: int): (c: Challenge)
    ensures c.gestureType == gestureType && c.targetCount == targetCount
    ensures c.timeLimit == timeLimit && c.level == level
    ensures !c.isCompleted && c.completionTime.None? && c.accuracy.None?
  {
    Challenge(gestureType, targetCount, timeLimit, level, false, None, None)
  }
}
