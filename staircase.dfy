/** The per-axis staircase rule of `TrivectorTestResponse` (ColorCalibration.cpp,
    lines 411-474) as a pure function on one axis's state, and what it guarantees
    over a run of responses. The class in trivector.dfy applies this rule in place. */
module Staircase {

  /** Largest and smallest threshold, and the limits that end an axis. */
  const Ceiling: real := 0.110
  const Floor: real := 0.002
  const PeakLimit: int := 5
  const ReversalLimit: int := 4

  /** Percentage of an up-step, and the step size left behind after one. */
  const UpStepPercent: int := 24
  const StepAfterUp: int := 8

  /** One confusion axis: `threshold`, `step_size`, `dir_stair`, `reversal_counter`,
      `track_peak`, `index`, `test_done` and `final_threshold[i].threshArr`. */
  datatype AxisState = AxisState(
    threshold: real,
    stepSize: int,
    dirStair: bool,
    reversals: int,
    trackPeak: int,
    index: int,
    done: bool,
    banked: seq<real>)

  /** An axis as `readPlatePointsFromCSV` sets it up (lines 156-166). */
  function Fresh(start: real, startStep: int): AxisState
  {
    AxisState(start, startStep, false, 0, 0, 1, false, [])
  }

  /** The threshold clamped into [Floor, Ceiling]. */
  function Clamp(t: real): (r: real)
    ensures Floor <= r <= Ceiling
    ensures Floor <= t <= Ceiling ==> r == t
    ensures t > Ceiling ==> r == Ceiling
    ensures t < Floor ==> r == Floor
  {
    if t > Ceiling then Ceiling else if t < Floor then Floor else t
  }

  /** The branch of lines 416-441. The result's `threshold` is the proposed new
      threshold (`temp_threshold`) before it is clamped. */
  function Step(s: AxisState, correct: bool, start: real): AxisState
  {
    if s.trackPeak >= PeakLimit then
      s.(threshold := Ceiling, done := true)
    else if !correct && s.threshold >= start then
      s.(trackPeak := s.trackPeak + 1, threshold := Ceiling)
    else if correct then
      s.(dirStair := true, threshold := s.threshold * (1.0 - s.stepSize as real / 100.0))
    else if s.dirStair then
      s.(dirStair := false, stepSize := StepAfterUp, reversals := s.reversals + 1,
         threshold := s.threshold * (1.0 + UpStepPercent as real / 100.0))
    else
      s.(dirStair := false, stepSize := StepAfterUp,
         threshold := s.threshold * (1.0 + UpStepPercent as real / 100.0))
  }

  /** One handled response on one axis: bank the old threshold when the response's
      correctness differs from `dir_stair`, take the branch, clamp, apply the floor
      and reversal termination tests, and advance the trial index. */
  function Update(s: AxisState, correct: bool, start: real): (r: AxisState)
    ensures Floor <= r.threshold <= Ceiling
    ensures r.index == s.index + 1
    ensures r.banked == if s.dirStair != correct then s.banked + [s.threshold] else s.banked
    ensures s.done ==> r.done
    ensures r.stepSize == s.stepSize || r.stepSize == StepAfterUp
    ensures r.reversals == s.reversals || r.reversals == s.reversals + 1
    ensures r.trackPeak == s.trackPeak || r.trackPeak == s.trackPeak + 1
    ensures r.done <==> s.done || s.trackPeak >= PeakLimit || Step(s, correct, start).threshold < Floor
                        || r.reversals >= ReversalLimit
  {
    var b := Step(s, correct, start);
    var capped := if b.threshold > Ceiling then Ceiling else b.threshold;
    var settled :=
      if capped >= Floor then b.(threshold := capped, done := b.done || b.reversals >= ReversalLimit)
      else b.(threshold := Floor, done := true);
    settled.(index := s.index + 1,
             banked := if s.dirStair != correct then s.banked + [s.threshold] else s.banked)
  }

  /** A correct response below the ceiling track tightens by `step_size` percent,
      sets `dir_stair`, and leaves the reversal count and step size alone. */
  lemma CorrectRule(s: AxisState, start: real)
    requires s.trackPeak < PeakLimit
    ensures var r := Update(s, true, start);
            r.dirStair && r.reversals == s.reversals && r.stepSize == s.stepSize &&
            r.trackPeak == s.trackPeak &&
            r.threshold == Clamp(s.threshold * (1.0 - s.stepSize as real / 100.0))
  {
  }

  /** An incorrect response below the starting threshold grows the threshold by 24%,
      clears `dir_stair`, leaves step size 8, and counts a reversal exactly when
      `dir_stair` was set. */
  lemma IncorrectRule(s: AxisState, start: real)
    requires s.trackPeak < PeakLimit && s.threshold < start
    ensures var r := Update(s, false, start);
            !r.dirStair && r.stepSize == StepAfterUp && r.trackPeak == s.trackPeak &&
            r.threshold == Clamp(s.threshold * 1.24) &&
            (r.reversals == s.reversals + 1 <==> s.dirStair) &&
            (r.reversals == s.reversals <==> !s.dirStair)
  {
  }

  /** An incorrect response at or above the starting threshold climbs the ceiling
      track: the threshold goes to the ceiling and nothing else but the track moves. */
  lemma CeilingRule(s: AxisState, start: real)
    requires s.trackPeak < PeakLimit && s.threshold >= start
    ensures var r := Update(s, false, start);
            r.trackPeak == s.trackPeak + 1 && r.threshold == Ceiling &&
            r.dirStair == s.dirStair && r.reversals == s.reversals && r.stepSize == s.stepSize &&
            (r.done <==> s.done || s.reversals >= ReversalLimit)
  {
  }

  /** Once the ceiling track has reached 5, the next response of either kind ends the
      axis at the ceiling. */
  lemma PeakExhaustedRule(s: AxisState, correct: bool, start: real)
    requires s.trackPeak >= PeakLimit
    ensures var r := Update(s, correct, start);
            r.done && r.threshold == Ceiling && r.trackPeak == s.trackPeak &&
            r.dirStair == s.dirStair && r.reversals == s.reversals && r.stepSize == s.stepSize
  {
  }

  /** A correct response never raises the threshold of an axis inside its range, and
      strictly lowers it above the floor when the step size is positive. */
  lemma CorrectNeverRaises(s: AxisState, start: real)
    requires s.trackPeak < PeakLimit && 0 <= s.stepSize
    requires Floor <= s.threshold <= Ceiling
    ensures Update(s, true, start).threshold <= s.threshold
    ensures 0 < s.stepSize && Floor < s.threshold ==> Update(s, true, start).threshold < s.threshold
  {
    var t := s.threshold * (1.0 - s.stepSize as real / 100.0);
    assert t == s.threshold - s.threshold * (s.stepSize as real / 100.0);
    assert s.threshold * (s.stepSize as real / 100.0) >= 0.0;
    if 0 < s.stepSize && Floor < s.threshold {
      assert s.threshold * (s.stepSize as real / 100.0) > 0.0;
    }
  }

  /** The state after answering `responses` in order (true = correct). */
  function Run(s: AxisState, responses: seq<bool>, start: real): AxisState
    decreases |responses|
  {
    if responses == [] then s else Run(Update(s, responses[0], start), responses[1..], start)
  }

  /** Answering `a` and then `b` is answering `a + b`. */
  lemma {:induction false} RunAppend(s: AxisState, a: seq<bool>, b: seq<bool>, start: real)
    ensures Run(s, a + b, start) == Run(Run(s, a, start), b, start)
    decreases |a|
  {
    if a == [] {
      assert a + b == b;
    } else {
      assert (a + b)[0] == a[0];
      assert (a + b)[1..] == a[1..] + b;
      RunAppend(Update(s, a[0], start), a[1..], b, start);
    }
  }

  /** After at least one response the threshold is within [Floor, Ceiling], every
      trial advanced the index, nothing banked is lost, and a finished axis stays
      finished. */
  lemma {:induction false} RunInvariants(s: AxisState, responses: seq<bool>, start: real)
    ensures var r := Run(s, responses, start);
            (responses != [] ==> Floor <= r.threshold <= Ceiling) &&
            r.index == s.index + |responses| &&
            s.banked <= r.banked &&
            (s.done ==> r.done)
    decreases |responses|
  {
    if responses != [] {
      var n := Update(s, responses[0], start);
      RunInvariants(n, responses[1..], start);
    }
  }

  /** All correct responses (below the ceiling track, with a non-negative step) keep
      the step size, reversal count and ceiling track, and never raise the threshold. */
  lemma {:induction false} AllCorrectTightens(s: AxisState, responses: seq<bool>, start: real)
    requires forall k :: 0 <= k < |responses| ==> responses[k]
    requires s.trackPeak < PeakLimit && 0 <= s.stepSize && Floor <= s.threshold <= Ceiling
    ensures var r := Run(s, responses, start);
            r.threshold <= s.threshold && r.stepSize == s.stepSize &&
            r.reversals == s.reversals && r.trackPeak == s.trackPeak &&
            Floor <= r.threshold <= Ceiling
    decreases |responses|
  {
    if responses != [] {
      var n := Update(s, true, start);
      CorrectRule(s, start);
      CorrectNeverRaises(s, start);
      AllCorrectTightens(n, responses[1..], start);
    }
  }

  /** Along a run of correct responses the threshold is non-increasing trial by trial. */
  lemma AllCorrectMonotone(s: AxisState, responses: seq<bool>, start: real, k: nat)
    requires forall j :: 0 <= j < |responses| ==> responses[j]
    requires s.trackPeak < PeakLimit && 0 <= s.stepSize && Floor <= s.threshold <= Ceiling
    requires k < |responses|
    ensures Run(s, responses[..k + 1], start).threshold <= Run(s, responses[..k], start).threshold
  {
    var before := Run(s, responses[..k], start);
    AllCorrectTightens(s, responses[..k], start);
    assert responses[..k + 1] == responses[..k] + [responses[k]];
    RunAppend(s, responses[..k], [responses[k]], start);
    assert Run(before, [true], start) == Update(before, true, start);
    CorrectNeverRaises(before, start);
  }

  /** `k` incorrect responses. */
  function Misses(k: nat): (m: seq<bool>)
    ensures |m| == k && forall j :: 0 <= j < k ==> !m[j]
  {
    seq(k, _ => false)
  }

  /** Incorrect responses at or above the starting threshold climb the ceiling track
      one step each, pinning the threshold at the ceiling without ending the axis. */
  lemma {:induction false} CeilingClimb(s: AxisState, k: nat, start: real)
    requires start <= Ceiling && s.threshold >= start
    requires s.trackPeak + k <= PeakLimit && 0 <= s.trackPeak
    requires !s.done && s.reversals < ReversalLimit
    ensures var r := Run(s, Misses(k), start);
            r.trackPeak == s.trackPeak + k && !r.done &&
            (k > 0 ==> r.threshold == Ceiling) && (k == 0 ==> r.threshold == s.threshold) &&
            r.reversals == s.reversals && r.dirStair == s.dirStair && r.stepSize == s.stepSize
    decreases k
  {
    if k > 0 {
      var n := Update(s, false, start);
      CeilingRule(s, start);
      assert Misses(k)[0] == false && Misses(k)[1..] == Misses(k - 1);
      CeilingClimb(n, k - 1, start);
    }
  }

  /** From a fresh axis whose starting threshold is within the ceiling, five misses
      leave the ceiling track at 5 with the axis still running; the sixth response,
      of either kind, ends the axis at the ceiling. */
  lemma CeilingEndsOnSixthResponse(start: real, startStep: int, sixth: bool)
    requires start <= Ceiling
    ensures var five := Run(Fresh(start, startStep), Misses(5), start);
            five.trackPeak == PeakLimit && !five.done && five.threshold == Ceiling &&
            Update(five, sixth, start).done && Update(five, sixth, start).threshold == Ceiling
  {
    CeilingClimb(Fresh(start, startStep), 5, start);
    var five := Run(Fresh(start, startStep), Misses(5), start);
    PeakExhaustedRule(five, sixth, start);
  }

  /** With starting threshold 0.064 and step 8%: a hit gives 0.05888 and sets
      `dir_stair`; a following miss is a reversal giving 0.05888 * 1.24. Both
      responses disagree with the `dir_stair` they meet, so both old thresholds are banked. */
  lemma HitThenMiss()
    ensures var one := Update(Fresh(0.064, 8), true, 0.064);
            one.threshold == 0.05888 && one.dirStair && one.reversals == 0 &&
            var two := Update(one, false, 0.064);
            two.threshold == 0.0730112 && two.reversals == 1 && two.stepSize == 8 &&
            !two.dirStair && two.banked == [0.064, 0.05888]
  {
  }
}
