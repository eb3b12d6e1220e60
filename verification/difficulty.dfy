/** Difficulty rules of the game engine: the vertical gap between the two
    halves of a pipe pair, and the horizontal scroll speed. Both are pure
    functions of the current run's score. */
module Difficulty {

  /** Gap at score 0 and its lower clamp (pipe.gap, pipe.minGap). */
  const BaseGap: int := 200
  const MinGap: int := 65
  /** The gap shrinks by GapStep every GapStep points. */
  const GapStep: nat := 5

  /** Scroll speed at score 0, increment every 10 points, and cap. */
  const BaseSpeed: real := 2.0
  const SpeedStep: real := 0.5
  const MaxSpeed: real := 5.0

  function Max(a: int, b: int): int { if a >= b then a else b }
  function Min(a: int, b: int): int { if a <= b then a else b }

  /** pipe.updateDifficulty: the base gap less the score rounded down to a
      multiple of five, clamped from below at the minimum gap. */
  function Gap(score: nat): (g: int)
    ensures MinGap <= g <= BaseGap
    ensures g == MinGap <==> score >= 135
    ensures g > MinGap ==> g % GapStep == 0 && BaseGap - g <= score < BaseGap - g + GapStep
  {
    Max(BaseGap - (score / GapStep) * GapStep, MinGap)
  }

  /** A higher score never widens the gap. */
  lemma GapMonotone(a: nat, b: nat)
    requires a <= b
    ensures Gap(b) <= Gap(a)
  {
  }

  /** updateSpeed: base speed plus half a pixel every ten points, capped. */
  function Speed(score: nat): (dx: real)
    ensures BaseSpeed <= dx <= MaxSpeed
    ensures dx == MaxSpeed <==> score >= 60
  {
    var raw := BaseSpeed + (score / 10) as real * SpeedStep;
    if raw < MaxSpeed then raw else MaxSpeed
  }

  /** Reference definition of the scroll speed in half-pixel units. */
  function SpeedHalves(score: nat): int
  {
    Min(4 + score / 10, 10)
  }

  /** The real-valued speed is exactly the half-unit reference halved. */
  lemma SpeedInHalfUnits(score: nat)
    ensures Speed(score) == SpeedHalves(score) as real / 2.0
  {
  }

  /** A higher score never slows the scroll down. */
  lemma SpeedMonotone(a: nat, b: nat)
    requires a <= b
    ensures Speed(a) <= Speed(b)
  {
  }

  /** The worked example of a run at 47 points. */
  lemma DifficultyAt47()
    ensures Gap(47) == 155
    ensures Speed(47) == 4.0
  {
  }
}
