/** The trivector test session of `UColorCalibration`: the per-axis arrays that
    `readPlatePointsFromCSV` sets up (ColorCalibration.cpp, lines 148-178), stimulus
    selection (`TrivectorTestStimuli`, lines 334-357) and response handling
    (`TrivectorTestResponse`, lines 359-500). Random draws and the final-threshold
    aggregation `calcFinal` are supplied by the caller. */
module Trivector {
  import opened Staircase
  import ConfusionAxis

  datatype Option<T> = None | Some(value: T)

  /** The log text for the button pressed; a response outside 0..3 gets no text. */
  function ButtonLabel(response: int): (text: string)
    ensures text == "" <==> !(0 <= response <= 3)
  {
    match response
    case 0 => "Top Button"
    case 1 => "Left Button"
    case 2 => "Bottom Button"
    case 3 => "Right Button"
    case _ => ""
  }

  function HitLabel(hit: bool): string
  {
    if hit then "Hit" else "Miss"
  }

  /** The log text for the presented direction, in degrees. The source reuses the
      string that held "Hit"/"Miss", so a direction outside 0..3 is logged as that. */
  function OrientationLabel(direction: int, hit: bool): (text: string)
    ensures 0 <= direction <= 3 ==> text in {"90", "180", "270", "0"}
    ensures !(0 <= direction <= 3) ==> text == HitLabel(hit)
  {
    match direction
    case 0 => "90"
    case 1 => "180"
    case 2 => "270"
    case 3 => "0"
    case _ => HitLabel(hit)
  }

  /** Distinct buttons and distinct directions are logged with distinct texts. */
  lemma LabelsDistinct(a: int, b: int, hit: bool)
    requires 0 <= a <= 3 && 0 <= b <= 3 && a != b
    ensures ButtonLabel(a) != ButtonLabel(b)
    ensures OrientationLabel(a, hit) != OrientationLabel(b, hit)
  {
  }

  /** One line of `subject_responses`, field by field (lines 361-472). */
  datatype TrialRecord = TrialRecord(
    button: string,
    outcome: string,
    neutralV: real,
    orientation: string,
    neutralU: real,
    saturation: real,
    reversals: int,
    trial: int,
    threshold: real,
    stepSize: int,
    azimuth: real)

  datatype LogEntry =
    | Trial(record: TrialRecord)
    | FinalThreshold(azimuth: real, value: real)

  /** The record of a trial: thresholds and the trial index as they were before the
      update, the reversal count and step size as they are after it. */
  function TrialOf(response: int, direction: int, before: AxisState, after: AxisState,
                   azimuth: real): (r: TrialRecord)
    ensures r.saturation == before.threshold && r.threshold == before.threshold
    ensures r.trial == before.index
    ensures r.reversals == after.reversals && r.stepSize == after.stepSize
    ensures r.azimuth == azimuth
    ensures r.neutralU == 0.1977 && r.neutralV == 0.4689
    ensures r.button == ButtonLabel(response)
    ensures r.outcome == "Hit" <==> response == direction
    ensures r.orientation == OrientationLabel(direction, response == direction)
  {
    var hit := response == direction;
    var n := ConfusionAxis.NeutralPoint();
    TrialRecord(ButtonLabel(response), HitLabel(hit), n.v, OrientationLabel(direction, hit), n.u,
                before.threshold, after.reversals, before.index, before.threshold,
                after.stepSize, azimuth)
  }

  /** The per-axis summary lines written when the whole session is done (lines 493-497). */
  function Summaries(azimuths: seq<real>, banked: seq<seq<real>>, calcFinal: seq<real> -> real)
    : (log: seq<LogEntry>)
    requires |azimuths| == |banked|
    ensures |log| == |azimuths|
    ensures forall i :: 0 <= i < |log| ==> log[i] == FinalThreshold(azimuths[i], calcFinal(banked[i]))
  {
    if azimuths == [] then []
    else
      Summaries(azimuths[..|azimuths| - 1], banked[..|banked| - 1], calcFinal)
        + [FinalThreshold(azimuths[|azimuths| - 1], calcFinal(banked[|banked| - 1]))]
  }

  /** The index of the lowest axis that is not done (`|done|` when there is none). */
  function LowestActive(done: seq<bool>): (k: nat)
    ensures k <= |done|
    ensures k < |done| ==> !done[k]
    ensures forall j :: 0 <= j < k ==> done[j]
  {
    if done == [] then 0
    else if !done[0] then 0
    else 1 + LowestActive(done[1..])
  }

  /** The axis TrivectorTestStimuli presents for the random pick `pick`: the pick
      itself while it is active, otherwise the lowest active axis, otherwise the pick. */
  function Choice(done: seq<bool>, pick: nat): (axis: nat)
    requires pick < |done|
    ensures axis < |done|
    ensures !done[pick] ==> axis == pick
    ensures (exists k :: 0 <= k < |done| && !done[k]) ==> !done[axis]
    ensures done[pick] ==> forall j :: 0 <= j < axis ==> done[j]
  {
    if !done[pick] then pick
    else
      var k := LowestActive(done);
      if k < |done| then k else pick
  }

  /** What `TrivectorTestResponse` leaves in `new_confusion_line` / `new_direction`. */
  datatype NextStimulus =
    | Untouched                            // the session was already over: nothing written
    | Present(axis: nat, direction: nat)   // the next stimulus to show
    | SessionOver                          // the session just ended: both set to 0

  class Session {
    /** CONFUSION_ALONG, the number of confusion axes. */
    const axes: nat

    var threshold: seq<real>
    var stepSize: seq<int>
    var dirStair: seq<bool>
    var reversalCounter: seq<int>
    var trackPeak: seq<int>
    var index: seq<int>
    /** `final_threshold[i].threshArr`: the thresholds banked on axis i. */
    var banked: seq<seq<real>>

    const testDone: array<bool>
    /** `lines_of_confusion`: the azimuth of each axis. */
    const azimuths: array<real>

    var startingThreshold: real
    var allTestDone: bool
    /** `subject_responses`. */
    var log: seq<LogEntry>

    /** The two fixed-size arrays have one entry per axis. */
    ghost predicate Shaped()
      reads this
    {
      axes >= 1 && testDone.Length == axes && azimuths.Length == axes
    }

    /** Every per-axis list has one entry per axis, as after initialisation. */
    ghost predicate Valid()
      reads this
    {
      Shaped() &&
      |threshold| == axes && |stepSize| == axes && |dirStair| == axes &&
      |reversalCounter| == axes && |trackPeak| == axes && |index| == axes && |banked| == axes
    }

    /** The state of axis `i`, gathered from the per-axis lists. */
    function Axis(i: nat): AxisState
      requires Valid() && i < axes
      reads this, testDone
    {
      AxisState(threshold[i], stepSize[i], dirStair[i], reversalCounter[i], trackPeak[i],
                index[i], testDone[i], banked[i])
    }

    /** A new object: lists empty, arrays allocated, the session not marked finished. */
    constructor (axes: nat)
      requires axes >= 1
      ensures this.axes == axes && Shaped() && fresh(testDone) && fresh(azimuths)
      ensures threshold == [] && stepSize == [] && dirStair == [] && reversalCounter == []
      ensures trackPeak == [] && index == [] && banked == []
      ensures !allTestDone && log == []
    {
      this.axes := axes;
      testDone := new bool[axes];
      azimuths := new real[axes];
      threshold, stepSize, dirStair, reversalCounter := [], [], [], [];
      trackPeak, index, banked := [], [], [];
      startingThreshold := 0.0;
      allTestDone := false;
      log := [];
    }

    /** The initialisation part of readPlatePointsFromCSV: every axis fresh, the azimuths
        set. It does not touch `all_test_done` or the log. */
    method Init(start: real, startStep: int)
      requires Shaped()
      modifies this, testDone, azimuths
      ensures Valid()
      ensures startingThreshold == start
      ensures forall i :: 0 <= i < axes ==> Axis(i) == Fresh(start, startStep)
      ensures forall i :: 0 <= i < axes ==> azimuths[i] == ConfusionAxis.Azimuth(axes, i)
      ensures allTestDone == old(allTestDone) && log == old(log)
    {
      startingThreshold := start;
      ResetAxes(start, startStep);
      SetAzimuths();
    }

    /** Lines 156-166: one fresh entry per axis in every per-axis list. */
    method ResetAxes(start: real, startStep: int)
      requires Shaped()
      modifies this`threshold, this`stepSize, this`dirStair, this`reversalCounter
      modifies this`trackPeak, this`index, this`banked, testDone
      ensures Valid()
      ensures forall i :: 0 <= i < axes ==> Axis(i) == Fresh(start, startStep)
    {
      var ts, steps, dirs, revs, peaks, idx, bank := [], [], [], [], [], [], [];
      var i := 0;
      while i < axes
        modifies testDone
        invariant 0 <= i <= axes
        invariant |ts| == i && |steps| == i && |dirs| == i && |revs| == i
        invariant |peaks| == i && |idx| == i && |bank| == i
        invariant forall k :: 0 <= k < i ==>
                    ts[k] == start && steps[k] == startStep && !dirs[k] && revs[k] == 0 &&
                    peaks[k] == 0 && idx[k] == 1 && bank[k] == [] && !testDone[k]
      {
        ts := ts + [start];
        bank := bank + [[]];
        steps := steps + [startStep];
        dirs := dirs + [false];
        revs := revs + [0];
        testDone[i] := false;
        idx := idx + [1];
        peaks := peaks + [0];
        i := i + 1;
      }
      threshold, stepSize, dirStair, reversalCounter := ts, steps, dirs, revs;
      trackPeak, index, banked := peaks, idx, bank;
    }

    /** Lines 168-178: the protan, deuteran and tritan literals for three axes,
        otherwise evenly spaced azimuths. */
    method SetAzimuths()
      requires Shaped()
      modifies azimuths
      ensures forall i :: 0 <= i < axes ==> azimuths[i] == ConfusionAxis.Azimuth(axes, i)
    {
      if axes == 3 {
        azimuths[0] := 0.07;
        azimuths[1] := 5.98;
        azimuths[2] := 4.83;
      } else {
        var j := 0;
        while j < axes
          invariant 0 <= j <= axes
          invariant forall k :: 0 <= k < j ==> azimuths[k] == ConfusionAxis.Azimuth(axes, k)
        {
          azimuths[j] := (j * 2) as real * ConfusionAxis.PI / axes as real;
          j := j + 1;
        }
      }
    }

    /** TrivectorTestStimuli with its random draws `pick` (an axis) and `draw` (a
        direction) passed in: while the session runs it presents an active axis in
        direction `draw`; once it is over it only overwrites the axis. */
    method Stimuli(pick: nat, draw: nat) returns (axis: nat, direction: Option<nat>)
      requires Valid() && pick < axes && draw <= 3
      ensures axis < axes
      ensures allTestDone ==> axis == pick && direction == None
      ensures !allTestDone ==> direction == Some(draw) && axis == Choice(testDone[..], pick)
    {
      axis := pick;
      if allTestDone {
        return axis, None;
      }
      if testDone[axis] {
        var i := 0;
        while i < axes
          invariant 0 <= i <= axes
          invariant axis == pick
          invariant forall k :: 0 <= k < i ==> testDone[k]
        {
          if !testDone[i] {
            axis := i;
            break;
          }
          i := i + 1;
        }
        ghost var done := testDone[..];
        if axis != pick || !done[pick] {
          assert LowestActive(done) == axis;
        } else {
          assert forall k :: 0 <= k < |done| ==> done[k];
        }
      }
      direction := Some(draw);
    }

    /** TrivectorTestResponse: if the session is over nothing changes; otherwise axis
        `line` takes one staircase step (Staircase.Update) and every other axis is
        untouched, one trial record is logged, `all_test_done` becomes the conjunction
        of the axes' `test_done`, and either the next stimulus is chosen (with the
        draws `pick` and `draw`) or every axis's final threshold is logged. */
    method Response(response: int, direction: int, line: nat, pick: nat, draw: nat,
                    calcFinal: seq<real> -> real) returns (next: NextStimulus)
      requires Valid() && line < axes && pick < axes && draw <= 3
      modifies this, testDone
      ensures Valid() && startingThreshold == old(startingThreshold)
      ensures old(allTestDone) ==> next == Untouched && unchanged(this) && unchanged(testDone)
      ensures !old(allTestDone) ==>
                Axis(line) == Update(old(Axis(line)), response == direction, startingThreshold)
      ensures !old(allTestDone) ==>
                forall i :: 0 <= i < axes && i != line ==> Axis(i) == old(Axis(i))
      ensures !old(allTestDone) ==> Floor <= threshold[line] <= Ceiling
      ensures !old(allTestDone) ==> forall i :: 0 <= i < axes && old(testDone[i]) ==> testDone[i]
      ensures !old(allTestDone) ==> (allTestDone <==> forall i :: 0 <= i < axes ==> testDone[i])
      ensures !old(allTestDone) ==>
                log == old(log)
                       + [Trial(TrialOf(response, direction, old(Axis(line)), Axis(line), azimuths[line]))]
                       + (if allTestDone then Summaries(azimuths[..], banked, calcFinal) else [])
      ensures !old(allTestDone) ==>
                next == if allTestDone then SessionOver else Present(Choice(testDone[..], pick), draw)
    {
      if allTestDone {
        return Untouched;
      }
      Handle(response, direction, line);
      next := Finish(pick, draw, calcFinal);
    }

    /** Lines 411-474, the trial on axis `line` while the session runs: the axis takes
        one staircase step, every other axis is untouched, no axis is reopened, and
        one trial record is logged. */
    method Handle(response: int, direction: int, line: nat)
      requires Valid() && line < axes
      modifies this`threshold, this`banked, this`trackPeak, this`dirStair, this`stepSize
      modifies this`reversalCounter, this`index, this`log, testDone
      ensures Valid()
      ensures Axis(line) == Update(old(Axis(line)), response == direction, startingThreshold)
      ensures Floor <= threshold[line] <= Ceiling
      ensures forall i :: 0 <= i < axes && i != line ==> Axis(i) == old(Axis(i))
      ensures forall i :: 0 <= i < axes && old(testDone[i]) ==> testDone[i]
      ensures log == old(log) + [Trial(TrialOf(response, direction, old(Axis(line)), Axis(line), azimuths[line]))]
    {
      var correct := response == direction;
      var before := Axis(line);
      var t := threshold[line];
      var proposed := Branch(line, correct);
      var temp := Settle(line, proposed);
      var n := ConfusionAxis.NeutralPoint();
      var hit := correct;
      var record := TrialRecord(ButtonLabel(response), HitLabel(hit), n.v, OrientationLabel(direction, hit),
                                n.u, t, reversalCounter[line], index[line], t, stepSize[line],
                                azimuths[line]);
      threshold := threshold[line := temp];
      log := log + [Trial(record)];
      index := index[line := index[line] + 1];
      assert Axis(line) == Update(before, correct, startingThreshold);
      assert record == TrialOf(response, direction, before, Axis(line), azimuths[line]);
      forall i | 0 <= i < axes && old(testDone[i])
        ensures testDone[i]
      {
        if i == line {
          assert before.done;
        } else {
          assert testDone[..][i] == old(testDone[..])[i];
        }
      }
    }

    /** Lines 413-441: bank the current threshold when the response's correctness
        differs from `dir_stair`, then take the staircase branch (Staircase.Step) on
        axis `line`; the result is the proposed threshold, not yet clamped. */
    method Branch(line: nat, correct: bool) returns (temp: real)
      requires Valid() && line < axes
      modifies this`banked, this`trackPeak, this`dirStair, this`stepSize, this`reversalCounter
      modifies testDone
      ensures Valid()
      ensures var s := old(Axis(line));
              var b := Step(s, correct, startingThreshold);
              temp == b.threshold &&
              banked == old(banked)[line := if s.dirStair != correct then s.banked + [s.threshold] else s.banked] &&
              trackPeak == old(trackPeak)[line := b.trackPeak] &&
              dirStair == old(dirStair)[line := b.dirStair] &&
              stepSize == old(stepSize)[line := b.stepSize] &&
              reversalCounter == old(reversalCounter)[line := b.reversals] &&
              testDone[..] == old(testDone[..])[line := b.done]
    {
      var t := threshold[line];
      if dirStair[line] != correct {
        banked := banked[line := banked[line] + [t]];
      }
      if trackPeak[line] >= PeakLimit {
        temp := Ceiling;
        testDone[line] := true;
      } else if !correct && t >= startingThreshold {
        trackPeak := trackPeak[line := trackPeak[line] + 1];
        temp := Ceiling;
      } else if correct {
        dirStair := dirStair[line := true];
        temp := t * (1.0 - stepSize[line] as real / 100.0);
      } else if dirStair[line] {
        dirStair := dirStair[line := false];
        stepSize := stepSize[line := UpStepPercent];
        temp := t * (1.0 + stepSize[line] as real / 100.0);
        stepSize := stepSize[line := StepAfterUp];
        reversalCounter := reversalCounter[line := reversalCounter[line] + 1];
      } else {
        dirStair := dirStair[line := false];
        stepSize := stepSize[line := UpStepPercent];
        temp := t * (1.0 + stepSize[line] as real / 100.0);
        stepSize := stepSize[line := StepAfterUp];
      }
    }

    /** Lines 459-466: cap the proposed threshold at the ceiling; below the floor it is
        raised to the floor and the axis ends, otherwise the axis ends once it has
        four reversals. */
    method Settle(line: nat, proposed: real) returns (temp: real)
      requires Valid() && line < axes
      modifies testDone
      ensures var capped := if proposed > Ceiling then Ceiling else proposed;
              temp == (if capped >= Floor then capped else Floor) &&
              testDone[..] == old(testDone[..])[line := old(testDone[line]) || capped < Floor ||
                                                        reversalCounter[line] >= ReversalLimit]
    {
      temp := proposed;
      if temp > Ceiling {
        temp := Ceiling;
      }
      if temp >= Floor {
        if reversalCounter[line] >= ReversalLimit {
          testDone[line] := true;
        }
      } else {
        temp := Floor;
        testDone[line] := true;
      }
    }

    /** Lines 481-499: `all_test_done` becomes the conjunction of the axes' `test_done`;
        while some axis is active the next stimulus is chosen, otherwise every axis's
        final threshold is logged. */
    method Finish(pick: nat, draw: nat, calcFinal: seq<real> -> real) returns (next: NextStimulus)
      requires Valid() && pick < axes && draw <= 3
      modifies this`allTestDone, this`log
      ensures allTestDone <==> forall i :: 0 <= i < axes ==> testDone[i]
      ensures log == old(log) + (if allTestDone then Summaries(azimuths[..], banked, calcFinal) else [])
      ensures next == if allTestDone then SessionOver else Present(Choice(testDone[..], pick), draw)
    {
      var all := true;
      for i := 0 to axes
        invariant all <==> forall k :: 0 <= k < i ==> testDone[k]
      {
        all := all && testDone[i];
      }
      allTestDone := all;
      if !allTestDone {
        var a, d := Stimuli(pick, draw);
        next := Present(a, d.value);
      } else {
        var summary: seq<LogEntry> := [];
        for i := 0 to axes
          invariant summary == Summaries(azimuths[..i], banked[..i], calcFinal)
        {
          assert azimuths[..i + 1][..i] == azimuths[..i];
          assert banked[..i + 1][..i] == banked[..i];
          summary := summary + [FinalThreshold(azimuths[i], calcFinal(banked[i]))];
        }
        assert azimuths[..axes] == azimuths[..];
        assert banked[..axes] == banked;
        log := log + summary;
        next := SessionOver;
      }
    }
  }
}
