# VisionScopePro colour calibration and trivector test, in Dafny

This project models `UColorCalibration` from `Source/RAPD/Private/ColorCalibration.cpp`, which has two parts.

**1. Colorimetry.**
- Conversions between luminance-plus-chromaticity (`FColor_lxy`), CIE 1976 u'v' (`FColor_Luv`), tristimulus XYZ (`FColor_XYZ`) and display RGB (`FLinearColor`).
- The calibration set-up `solve`. It turns four measured reference colours (red, green, blue, white) into an XYZ -> RGB matrix and its pseudo-inverse.

**2. The trivector colour-vision test.** This is an adaptive staircase run on several confusion axes at once.
- Each axis keeps a threshold, a step size, a staircase direction, a reversal count, a ceiling-track count, a trial index, a done flag and a list of banked thresholds.
- Every response updates one axis and appends one line to the response log.
- The test ends when every axis is done. At that point one final-threshold line per axis is logged.
- Smaller parts: the neutral background point, the end points of an axis, the stimulus colour interpolated along it, and the choice between the two plate layouts of each direction.

Files (one module each):
- `color_space.dfy` (`ColorSpace`): the colour datatypes and the conversions (lines 7-97). It includes the round trips and an independent textbook reference for the u'v' formulas.
- `calibration.dfy` (`Calibration`): `solve` (lines 564-590) and the choice of `max_lum` (line 139).
- `confusion_axis.dfy` (`ConfusionAxis`): `NeutralPoints`, the axis azimuths, `vectorCCT` and `ColorInterp`.
- `direction_plates.dfy` (`DirectionPlates`): `LoadDirectionPlates` with its eight literal tables, and the plate-index shift of `AlterPlateColors`.
- `staircase.dfy` (`Staircase`): the per-axis update rule of `TrivectorTestResponse` as a pure function `Update` on one axis's state. Lemmas describe single responses and runs of responses.
- `trivector.dfy` (`Trivector`): the test session as a class `Session`.
  - The per-axis `TArray`s are `seq` fields. `test_done` and `lines_of_confusion` are arrays.
  - Its methods mirror the initialisation in `readPlatePointsFromCSV`, `TrivectorTestStimuli` and `TrivectorTestResponse`.
  - The methods are proved against `Staircase.Update` and the selection function `Choice`.

Behaviour of the code worth knowing:
- **Ceiling track.** The check at line 416 runs before the increment at line 422. Five misses at or above the starting threshold leave the axis running at the ceiling, and the sixth response, of either kind, ends it (`Staircase.CeilingEndsOnSixthResponse`).
- **Out-of-range labels.** `response` and `direction` are not validated. A button outside 0..3 is logged with an empty label. A direction outside 0..3 is logged with the text that the reused string still holds ("Hit" or "Miss"), not an empty label.
- **Init and `all_test_done`.** The initialisation (lines 148-178) does not reset `all_test_done`.
- **Reopened axes.** The handler guards only on `all_test_done` (line 412), not on the axis's own `test_done`. A finished axis that is answered again is updated again, but it is never reopened.
- **Step size.** `step_size` keeps `start_step_size` until the first up-step, which leaves it at 8.

## Model

| member | source | states |
|---|---|---|
| ColorSpace.LxyToXyz | Source/RAPD/Private/ColorCalibration.cpp:13-29 | y = 0 gives (0,0,0); otherwise Y = l / max_lum, X + Y + Z = Y / y and X : Y = x : y |
| ColorSpace.XyzToLxy | Source/RAPD/Private/ColorCalibration.cpp:60-73 | X + Y + Z = 0 gives (0,0,0); otherwise l = Y * max_lum and x, y are the shares of X and Y in X + Y + Z |
| ColorSpace.LxyRoundTrip | Source/RAPD/Private/ColorCalibration.cpp:13-29 | lxy -> XYZ -> lxy returns the measurement when max_lum, y and l are non-zero |
| ColorSpace.LxyZeroLuminanceCollapses | Source/RAPD/Private/ColorCalibration.cpp:60-73 | a zero-luminance measurement comes back as (0,0,0), so the round trip needs l != 0 |
| ColorSpace.XyzRoundTrip | Source/RAPD/Private/ColorCalibration.cpp:60-73 | XYZ -> lxy -> XYZ returns the tristimulus values when X + Y + Z != 0 and Y != 0 |
| ColorSpace.LuvToLxy | Source/RAPD/Private/ColorCalibration.cpp:31-40 | luminance is kept; x * d = 9u' and y * d = 4v' with d = 6u' - 16v' + 12 |
| ColorSpace.LuvToLxyInverse | Source/RAPD/Private/ColorCalibration.cpp:31-40 | the textbook xy -> u'v' map undoes the u'v' -> xy conversion |
| ColorSpace.XyToUvInverse | Source/RAPD/Private/ColorCalibration.cpp:31-40 | the u'v' -> xy conversion undoes the textbook xy -> u'v' map, so the two are mutually inverse |
| ColorSpace.LuvToXyzTextbook | Source/RAPD/Private/ColorCalibration.cpp:49-58 | u'v' -> XYZ equals the textbook X = Y 9u'/4v', Z = Y (12 - 3u' - 20v')/4v', and gives black when v' = 0 |
| ColorSpace.XyzToRgb | Source/RAPD/Private/ColorCalibration.cpp:75-85 | the identity matrix leaves the components unchanged |
| ColorSpace.RgbToXyz | Source/RAPD/Private/ColorCalibration.cpp:87-97 | the identity matrix leaves the components unchanged |
| ColorSpace.ConversionsLinear | Source/RAPD/Private/ColorCalibration.cpp:75-97 | both matrix conversions are linear: a scaled sum of colours converts to the scaled sum of their images |
| ColorSpace.LuvToRgbRecoverable | Source/RAPD/Private/ColorCalibration.cpp:42-47 | u'v' -> RGB followed by an exact inverse matrix gives back the XYZ value of the u'v' point |
| ColorSpace.MatrixRoundTrip | Source/RAPD/Private/ColorCalibration.cpp:75-97 | when RGB->XYZ is a right inverse of XYZ->RGB, XYZ -> RGB -> XYZ is the identity |
| ColorSpace.LxyToRgbAsWrittenIgnoresInput | Source/RAPD/Private/ColorCalibration.cpp:7-11 | the as-written lxy -> RGB returns the caller's colour unchanged (D65 white comes back black), while the intended conversion does not |
| ColorSpace.LxyToRgbRecoverable | Source/RAPD/Private/ColorCalibration.cpp:7-11 | the corrected lxy -> RGB is lossless: with an exact inverse matrix the measurement is recovered |
| Calibration.SourceMatrix | Source/RAPD/Private/ColorCalibration.cpp:566-580 | the White row has Y = 1, and a primary with y = 0 gives a zero row |
| Calibration.Calibrate | Source/RAPD/Private/ColorCalibration.cpp:564-590 | max_lum is the White luminance; XYZ->RGB is the solver's answer for (source, target) and RGB->XYZ its pseudo-inverse; an exact fit maps red, green and blue to the unit channels and white to (1,1,1) |
| Calibration.WhiteIsUnitLuminance | Source/RAPD/Private/ColorCalibration.cpp:139 | with max_lum taken from the White row, White converts to Y = 1 |
| Calibration.ExactFitWhiteMatchesSum | Source/RAPD/Private/ColorCalibration.cpp:577-585 | under an exact fit, the White row and the sum of the three primary rows have the same image under the solved matrix |
| Calibration.WhiteRoundTrip | Source/RAPD/Private/ColorCalibration.cpp:589-590 | with an exact fit and an exact inverse, full-scale RGB (1,1,1) converts back to the measured White |
| ConfusionAxis.NeutralPoint | Source/RAPD/Private/ColorCalibration.cpp:330-332 | the neutral point is off the singular line of the u'v' -> xy conversion |
| ConfusionAxis.NeutralIsD65 | Source/RAPD/Private/ColorCalibration.cpp:330-332 | the neutral point is D65 white (x 0.3127, y 0.3290) to within 0.001 |
| ConfusionAxis.Azimuth | Source/RAPD/Private/ColorCalibration.cpp:168-178 | every azimuth is in [0, 2 PI) |
| ConfusionAxis.AzimuthsDistinct | Source/RAPD/Private/ColorCalibration.cpp:168-178 | distinct axes have distinct azimuths |
| ConfusionAxis.VectorCct | Source/RAPD/Private/ColorCalibration.cpp:507-517 | both end points have L = 1; the start is 0.002 from the neutral point along the direction and the end one unit further |
| ConfusionAxis.InterpLuv | Source/RAPD/Private/ColorCalibration.cpp:555-562 | luminance is in [6, 22]; magnitude 0 gives the start chromaticity and magnitude = steps the end |
| ConfusionAxis.ColorInterpRecoverable | Source/RAPD/Private/ColorCalibration.cpp:555-562 | with an exact inverse matrix, the plate colour converts back to the interpolated chromaticity and the drawn luminance (v' != 0) |
| ConfusionAxis.StimulusConvertible | Source/RAPD/Private/ColorCalibration.cpp:536-542 | for any threshold in [0.002, 0.110] and unit direction, the stimulus and background u'v' points have denominator above 3, so the conversion is defined |
| ConfusionAxis.StimulusOffset | Source/RAPD/Private/ColorCalibration.cpp:536-542 | the stimulus lies on the axis at distance 0.002 + threshold from the neutral point |
| ConfusionAxis.BackgroundIsNeutral | Source/RAPD/Private/ColorCalibration.cpp:525-527 | the background colour has the neutral chromaticity |
| DirectionPlates.Layout | Source/RAPD/Private/ColorCalibration.cpp:275-323 | the plate list is empty exactly when the direction is outside 0..3 |
| DirectionPlates.PlateSlotOrder | Source/RAPD/Private/ColorCalibration.cpp:545 | the index shift preserves order, never targets actor 0, and merges only plates 211 and 212 |
| Staircase.Clamp | Source/RAPD/Private/ColorCalibration.cpp:459-466 | the result is in [0.002, 0.110]; in-range values are kept, others go to the nearer bound |
| Staircase.Update | Source/RAPD/Private/ColorCalibration.cpp:412-474 | threshold in [0.002, 0.110]; index + 1; old threshold banked iff correctness differs from dir_stair; done never cleared; done iff it was done, the ceiling track was at 5, the proposed threshold fell below the floor or the reversals reached 4 |
| Staircase.CorrectRule | Source/RAPD/Private/ColorCalibration.cpp:425-428 | a correct response sets dir_stair and shrinks the threshold by step_size percent (clamped); reversals and step size unchanged |
| Staircase.IncorrectRule | Source/RAPD/Private/ColorCalibration.cpp:429-441 | a miss below the start threshold clears dir_stair, grows the threshold by 24% (clamped), leaves step 8, and counts a reversal iff dir_stair was set |
| Staircase.CeilingRule | Source/RAPD/Private/ColorCalibration.cpp:421-424 | a miss at or above the start threshold increments the ceiling track and pins the threshold at 0.110; dir_stair, reversals, step unchanged |
| Staircase.PeakExhaustedRule | Source/RAPD/Private/ColorCalibration.cpp:416-420 | with the ceiling track at 5 any response ends the axis at 0.110 |
| Staircase.CorrectNeverRaises | Source/RAPD/Private/ColorCalibration.cpp:425-428 | a correct response never raises the threshold, and strictly lowers it above the floor |
| Staircase.RunInvariants | Source/RAPD/Private/ColorCalibration.cpp:412-474 | over any run: threshold in range after one response, index advanced per trial, banked list only grows, done stays done |
| Staircase.AllCorrectTightens | Source/RAPD/Private/ColorCalibration.cpp:425-428 | a run of correct responses keeps step, reversals and ceiling track and ends no higher than it started |
| Staircase.AllCorrectMonotone | Source/RAPD/Private/ColorCalibration.cpp:425-428 | along a run of correct responses the threshold is non-increasing trial by trial |
| Staircase.CeilingClimb | Source/RAPD/Private/ColorCalibration.cpp:416-424 | up to five misses at or above the start threshold climb the ceiling track one step each without ending the axis |
| Staircase.CeilingEndsOnSixthResponse | Source/RAPD/Private/ColorCalibration.cpp:416-424 | from a fresh axis, five misses leave it running at the ceiling; the sixth response ends it |
| Staircase.HitThenMiss | Source/RAPD/Private/ColorCalibration.cpp:413-441 | start 0.064, step 8: a hit gives 0.05888, a following miss is a reversal giving 0.0730112, and both old thresholds are banked |
| Trivector.ButtonLabel | Source/RAPD/Private/ColorCalibration.cpp:366-380 | the label is empty exactly when the response is outside 0..3 |
| Trivector.OrientationLabel | Source/RAPD/Private/ColorCalibration.cpp:393-407 | directions 0..3 give an angle; any other direction keeps the Hit/Miss text |
| Trivector.LabelsDistinct | Source/RAPD/Private/ColorCalibration.cpp:366-407 | distinct buttons and distinct directions get distinct labels |
| Trivector.TrialOf | Source/RAPD/Private/ColorCalibration.cpp:361-472 | the log line holds the button and Hit/Miss texts, the neutral u'v', the orientation, the threshold (twice) and index from before the update, and the reversal count and step size from after it |
| Trivector.Summaries | Source/RAPD/Private/ColorCalibration.cpp:493-497 | one final-threshold line per axis, in axis order, holding its azimuth and calcFinal of its banked list |
| Trivector.LowestActive | Source/RAPD/Private/ColorCalibration.cpp:341-346 | the first axis that is not done, or the count when all are done |
| Trivector.Choice | Source/RAPD/Private/ColorCalibration.cpp:337-347 | the pick when it is active, otherwise the lowest active axis; active whenever some axis is |
| Trivector.Session.Init | Source/RAPD/Private/ColorCalibration.cpp:148-178 | every axis is fresh (start threshold, start step, index 1, nothing banked, not done), the azimuths are set, all_test_done and the log untouched |
| Trivector.Session.ResetAxes | Source/RAPD/Private/ColorCalibration.cpp:156-166 | one fresh entry per axis in every per-axis list |
| Trivector.Session.SetAzimuths | Source/RAPD/Private/ColorCalibration.cpp:168-178 | axis i gets the azimuth Azimuth(N, i) |
| Trivector.Session.Stimuli | Source/RAPD/Private/ColorCalibration.cpp:334-357 | while the test runs, the next axis is Choice(test_done, pick) and the direction is the draw; once it is over only the pick is returned |
| Trivector.Session.Response | Source/RAPD/Private/ColorCalibration.cpp:359-500 | nothing changes once the test is over; otherwise the answered axis takes Update, the others are untouched, the threshold is in range, no axis reopens, all_test_done is the AND of test_done, one trial line (plus the summaries at the end) is logged, and the next stimulus is chosen |
| Trivector.Session.Handle | Source/RAPD/Private/ColorCalibration.cpp:411-474 | the answered axis's new state is Update of its old state, other axes unchanged, no axis reopened, exactly one trial record appended |
| Trivector.Session.Branch | Source/RAPD/Private/ColorCalibration.cpp:413-441 | banks the old threshold on a change of direction and applies Staircase.Step to the axis's lists, returning the unclamped threshold |
| Trivector.Session.Settle | Source/RAPD/Private/ColorCalibration.cpp:459-466 | caps at 0.110, raises to 0.002 and ends the axis below the floor, otherwise ends it at four reversals |
| Trivector.Session.Finish | Source/RAPD/Private/ColorCalibration.cpp:481-499 | all_test_done is the AND of test_done; the next stimulus is chosen, or the summaries are logged and the test is over |

## Left out

- File input and output are not modelled: reading the primaries and plate transforms from CSV, comma splitting, `Atof`, writing the log to disk and the log header line (lines 99-142, 180-273). The model starts from parsed values.
- The Eigen SVD least-squares solve and the complete-orthogonal-decomposition pseudo-inverse (lines 589-590) are function parameters of `Calibration.Calibrate`. Their numerical properties are not modelled. Only the exact-fit case is reasoned about.
- Rendering is not modelled: material instances, mesh actors and `LoadAllPlatesMeshActor` (lines 325-328, 519-553). What remains is the plate-index shift (line 545) and the colours computed for background and stimulus.
- Randomness is supplied by the caller: the random axis and direction draws, the coin choosing a plate table and the luminance jitter (lines 336-355, 289-317, 560). Cosine and sine of the azimuth are supplied too (lines 512-516). The model does not tie them to any particular angle.
- All arithmetic is over `real`. Single/double float rounding, infinities and NaN are not modelled.
- ColorSpace.LxyToXyz, ColorSpace.LuvToLxy: the source divides by `max_lum` and by 6u' - 16v' + 12 without a guard, giving infinities or NaN over floats. The model requires these divisors to be non-zero.
- `FTrackFinalThresholds::calcFinal` is not part of this model, because its definition is in a header. It is a function parameter of the response handler, and its value on an empty banked list is not constrained.
- The header declaring `CONFUSION_ALONG`, the arrays and the initial value of `all_test_done` is not part of this model. The number of axes is a constructor parameter, at least 1, and a new session starts with `all_test_done` false.
- Trivector.Session.Response: the source indexes the per-axis arrays with the caller's `confusion_line` without a check. The model requires it to be a valid axis.
- Trivector.Session.Stimuli: showing the stimulus (`AlterPlateColors`, line 356) is rendering and is left out. The threshold it would show is `threshold[axis]` of the returned axis.
- ConfusionAxis.InterpLuv: the jitter is taken in the closed range [0, 1], so the luminance bound is [6, 22] whichever end `FMath::FRand` can reach.
- The log lines are records, not formatted text: `SanitizeFloat`, `FromInt` and the comma joins are not modelled.
- The luminance of the neutral point is never read by the code. The model sets it to 0.
- DirectionPlates.Layout: plate numbers are not proved to lie within the plate-actor array. Only the empty/non-empty split and the index shift are stated.
- Dead code is not modelled: `updateThreshold` (lines 502-505), the commented-out staircase (lines 442-457) and the commented-out OpenCV implementation (lines 599-670).

## Findings

| source | as written | input that shows it | evidently intended | confidence | as-written member | corrected member |
|---|---|---|---|---|---|---|
| Source/RAPD/Private/ColorCalibration.cpp:7-11 | `convertFromlxytoRGB` converts to a local XYZ and never assigns `retColor`, so the caller's colour is returned unchanged | D65 white (l 100, x 0.3127, y 0.3290), max_lum 100, identity matrix, caller colour black: the result stays black | lxy -> XYZ -> RGB through the XYZ -> RGB matrix, as `convertFromLuvtoRGB` does for u'v' | high; not executed | ColorSpace.LxyToRgbAsWrittenIgnoresInput | ColorSpace.LxyToRgbRecoverable |
