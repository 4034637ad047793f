/** Homing the physical camera (supervisor.py, _bounded_camera_calibration_deltas). */
module Calibration {
  import opened Common

  const MAX_STEP_LIMIT := 4096

  /** Rounding to the nearest integer, ties to the even one. */
  function Round(x: real): int {
    var below := x.Floor;
    var rest := x - below as real;
    if rest < 0.5 || (rest == 0.5 && below % 2 == 0) then below else below + 1
  }

  /** `total` in chunks of at most `maxStep`, all of its sign. */
  function Split(total: int, maxStep: int): seq<int>
    requires 1 <= maxStep
    decreases Abs(total)
  {
    if total == 0 then []
    else
      var chunk := if total > 0 then Min(maxStep, total) else 0 - Min(maxStep, 0 - total);
      [chunk] + Split(total - chunk, maxStep)
  }

  predicate Accepted(gain: real, maxStep: int) {
    0.0 < gain <= 100.0 && 1 <= maxStep <= MAX_STEP_LIMIT
  }

  function Deltas(gain: real, maxStep: int): seq<int>
    requires Accepted(gain, maxStep)
  {
    Split(0 - Round(gain * 200.0), maxStep) + Split(Round(gain * 90.0), maxStep)
  }

  method SplitTotal(total: int, maxStep: int) returns (parts: seq<int>)
    requires 1 <= maxStep
    ensures parts == Split(total, maxStep)
  {
    var remaining := Abs(total);
    parts := [];
    while remaining > 0
      invariant 0 <= remaining
      invariant parts + Split(if total >= 0 then remaining else 0 - remaining, maxStep) == Split(total, maxStep)
    {
      var step := Min(maxStep, remaining);
      parts := parts + [if total >= 0 then step else 0 - step];
      remaining := remaining - step;
    }
  }

  method BoundedCameraCalibrationDeltas(gain: real, maxStep: int) returns (deltas: Option<seq<int>>)
    ensures deltas == if Accepted(gain, maxStep) then Some(Deltas(gain, maxStep)) else None
    ensures deltas.None? <==> gain <= 0.0 || gain > 100.0 || maxStep < 1 || maxStep > 4096
  {
    if !(0.0 < gain <= 100.0) || maxStep < 1 || maxStep > MAX_STEP_LIMIT {
      return None;
    }
    var home := SplitTotal(0 - Round(gain * 200.0), maxStep);
    var horizon := SplitTotal(Round(gain * 90.0), maxStep);
    return Some(home + horizon);
  }

  /** Rounding gives an integer that is nearest, and of two nearest ones the even one. */
  lemma RoundIsNearest(x: real, n: int)
    ensures n == Round(x) <==>
              && -0.5 <= x - n as real && x - n as real <= 0.5
              && (x - n as real == 0.5 || x - n as real == -0.5 ==> n % 2 == 0)
  {
    assert x.Floor as real <= x && x < x.Floor as real + 1.0;
  }

  /** All chunks but the last are as long as they may be. */
  lemma {:induction false} SplitInFullSteps(total: int, maxStep: int)
    requires 1 <= maxStep
    ensures forall i :: 0 <= i < |Split(total, maxStep)| - 1 ==> Abs(Split(total, maxStep)[i]) == maxStep
    decreases Abs(total)
  {
    if total != 0 {
      var chunk := if total > 0 then Min(maxStep, total) else 0 - Min(maxStep, 0 - total);
      SplitInFullSteps(total - chunk, maxStep);
    }
  }

  // --- The physical camera -------------------------------------------------------------------------

  function Stop(pole: real, position: real): real {
    if position < -pole then -pole else if position > pole then pole else position
  }

  /** Where a camera that stops at its pitch poles ends after the deltas. */
  function Turned(pole: real, position: real, deltas: seq<int>): real
    decreases |deltas|
  {
    if deltas == [] then position else Turned(pole, Stop(pole, position + deltas[0] as real), deltas[1..])
  }

  lemma {:induction false} SplitWithin(total: int, maxStep: int)
    requires 1 <= maxStep
    ensures forall i :: 0 <= i < |Split(total, maxStep)| ==>
              0 < Abs(Split(total, maxStep)[i]) <= maxStep && (Split(total, maxStep)[i] > 0 <==> total > 0)
    decreases Abs(total)
  {
    if total != 0 {
      var chunk := if total > 0 then Min(maxStep, total) else 0 - Min(maxStep, 0 - total);
      SplitWithin(total - chunk, maxStep);
    }
  }

  /** Chunks of one sign move the camera like one motion, however they are cut. */
  lemma {:induction false} TurnedBySplit(pole: real, position: real, total: int, maxStep: int)
    requires 0.0 < pole && -pole <= position <= pole && 1 <= maxStep
    ensures Turned(pole, position, Split(total, maxStep)) == Stop(pole, position + total as real)
    decreases Abs(total)
  {
    if total != 0 {
      var chunk := if total > 0 then Min(maxStep, total) else 0 - Min(maxStep, 0 - total);
      TurnedBySplit(pole, Stop(pole, position + chunk as real), total - chunk, maxStep);
    }
  }

  lemma {:induction false} TurnedConcat(pole: real, position: real, first: seq<int>, second: seq<int>)
    ensures Turned(pole, position, first + second) == Turned(pole, Turned(pole, position, first), second)
    decreases |first|
  {
    if first == [] {
      assert first + second == second;
    } else {
      assert (first + second)[1..] == first[1..] + second;
      TurnedConcat(pole, Stop(pole, position + first[0] as real), first[1..], second);
    }
  }

  /** Where a calibration started at `position` ends. */
  ghost function Ending(gain: real, maxStep: int, position: real): real
    requires Accepted(gain, maxStep)
  {
    Turned(gain * 90.0, position, Deltas(gain, maxStep))
  }

  lemma EndingIs(gain: real, maxStep: int, position: real)
    requires Accepted(gain, maxStep) && -gain * 90.0 <= position <= gain * 90.0
    ensures var pole := gain * 90.0;
            Ending(gain, maxStep, position)
            == Stop(pole, Stop(pole, position - Round(gain * 200.0) as real) + Round(gain * 90.0) as real)
  {
    hide Split, Turned, Stop, Round;
    var pole := gain * 90.0;
    var home := 0 - Round(gain * 200.0);
    TurnedConcat(pole, position, Split(home, maxStep), Split(Round(gain * 90.0), maxStep));
    TurnedBySplit(pole, position, home, maxStep);
    StopsWithin(pole, position + home as real);
    TurnedBySplit(pole, Stop(pole, position + home as real), Round(gain * 90.0), maxStep);
  }

  lemma StopsWithin(pole: real, position: real)
    requires 0.0 < pole
    ensures -pole <= Stop(pole, position) <= pole
  {
  }

  /** The roundings of the home and return phases leave less than half a count of slack. */
  predicate Homes(gain: real) {
    gain * 90.0 <= 0.5 || gain * 90.0 + Round(gain * 90.0) as real - Round(gain * 200.0) as real <= 0.5
  }

  ghost predicate EndsAtHorizon(gain: real, maxStep: int)
    requires Accepted(gain, maxStep)
  {
    forall position: real | -gain * 90.0 <= position <= gain * 90.0 ::
      -0.5 <= Ending(gain, maxStep, position) <= 0.5
  }

  /** The camera ends within half a count of the horizon from every legal start exactly when `Homes`. */
  lemma CalibrationIffHomes(gain: real, maxStep: int)
    requires Accepted(gain, maxStep)
    ensures EndsAtHorizon(gain, maxStep) <==> Homes(gain)
  {
    var pole := gain * 90.0;
    EndingIs(gain, maxStep, pole);
    if Homes(gain) {
      forall position: real | -gain * 90.0 <= position <= gain * 90.0
        ensures -0.5 <= Ending(gain, maxStep, position) <= 0.5
      {
        EndingIs(gain, maxStep, position);
      }
    } else {
      assert Ending(gain, maxStep, pole) > 0.5;
    }
  }

  /** Every measured gain from 0.025 counts per degree on is safe, and every chunk is bounded. */
  lemma CalibrationBound(gain: real, maxStep: int, position: real)
    requires Accepted(gain, maxStep) && 0.025 <= gain && -gain * 90.0 <= position <= gain * 90.0
    ensures -0.5 <= Ending(gain, maxStep, position) <= 0.5
    ensures forall i :: 0 <= i < |Deltas(gain, maxStep)| ==> 0 < Abs(Deltas(gain, maxStep)[i]) <= maxStep
  {
    CalibrationIffHomes(gain, maxStep);
    SplitWithin(0 - Round(gain * 200.0), maxStep);
    SplitWithin(Round(gain * 90.0), maxStep);
  }

  /** A gain the code admits and the calibration misses: started at the lower pole, the camera ends there. */
  lemma SmallGainMisses()
    ensures Accepted(0.007, 96) && !Homes(0.007) && !EndsAtHorizon(0.007, 96)
  {
    CalibrationIffHomes(0.007, 96);
  }
}
