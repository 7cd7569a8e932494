# Gaze tracking pipeline: a verified model

This project models the core of Iris, a gaze-tracking desktop application
that moves the mouse cursor to where the user looks. The model covers:

- **Eye detection post-processing**. The bounding boxes and blob keypoints
  that the OpenCV cascades and the blob detector report become two points.
  Each box gives its rounded centre, or the first pupil keypoint inside it.
  The face-first detectors pick the largest face and offset every point by
  its origin. The false-positive filter keeps the two topmost points. Both
  the `IrisSoftware` version and the first prototype (`detectEyes.py`) are
  modelled.
- **Coordinate reshaping and the interpolator**. `unpackEyeCoords` flattens
  each calibration sample into one row. `unpackScreenCoords` unzips the
  screen points. The `Interpolator` object is either uncalibrated or holds
  a fitted model. This covers the `IrisSoftware` version and the `src`
  version, whose constructor is misspelt. The `src` `unpackEyeCoords` and
  `unpackScreenCoords` (src/computeScreenCoords.py:9-15) have the same text
  as the `IrisSoftware` ones, so `SrcScreenCoords` uses the `IrisScreenCoords`
  functions.
- **Runtime state of `IrisSoftware/main.py`**. This covers cursor smoothing,
  the hold-still fallback and the blob threshold scaling. It also covers
  the pupil model mapping and the calibration sample list.
- **Calibration windows**.
  - The `IrisSoftware` 5×5 window has an active index and a Space hold-off
    flag.
  - The `src` 3×3 widget has its location arithmetic and its list of
    captured samples.
  - The preview size computation, the key predicates and the single
    selection group are also modelled.

Modules, one per file:

| module | file | models |
|---|---|---|
| `Common` | common.dfy | errors, `Result`, `Option`, Python's `round` |
| `QtKeys` | qt_keys.dfy | the key and the modifiers of a Qt key event |
| `StableSort` | stable_sort.dfy | Python's stable `sorted` with a key, as an insertion sort proved ordered, a permutation, stable and unique |
| `IrisDetectEyes` | iris_detect_eyes.dfy | `IrisSoftware/detectEyes.py` |
| `RootDetectEyes` | root_detect_eyes.dfy | `detectEyes.py` |
| `IrisScreenCoords` | iris_screen_coords.dfy | `IrisSoftware/computeScreenCoords.py` |
| `SrcScreenCoords` | src_screen_coords.dfy | `src/computeScreenCoords.py` |
| `IrisMain` | iris_main.dfy | `IrisSoftware/main.py` |
| `IrisWidgets` | iris_widgets.dfy | `IrisSoftware/widgets.py` |
| `SrcWidgets` | src_widgets.dfy | `src/ui/widgets.py` |

Foreign results become parameters:

- OpenCV results are a `Detections` record of boxes and of functions from a
  crop's box to what the cascade or blob detector reports there.
- Fitted sklearn and scipy models are function values (`Fitted`).
- The fitting procedures are a `Fitters` record.
- The existence of the calibration file is a boolean.
- The unpickled calibration record is a value.

Python's dynamic values matter in one place: `sum(tupList, ())` raises
`TypeError` when it is given numbers. For that, `IrisScreenCoords.PyValue`
models tuples, lists, integers and `None`. Floating-point values are exact
reals.

Objects whose fields the source reassigns are classes:

- `Interpolator`;
- `IrisSoftware` and its `State`;
- the calibration windows and circles;
- `Button` and `SelectionGroup`;
- `MainWidget`.

Methods state their new state in one of two ways:

- The key handlers and `__progressCalibration` of both calibration windows,
  and the interpolators' calibration and estimate methods, state the new
  state in terms of a pure step function (`PressStep`, `ProgressStep`,
  `CalibrationIn`, `ComputeScreenCoordsIn`). The step functions'
  properties are proved as lemmas.
- The other methods state their new state directly. These are the sample
  list updates, `Detach`, `ChangeVariant`, the settings callbacks and the
  constructors.

Four source functions loop, and their models are `while` loops with
invariants: `__drawCircles` (IrisSoftware/widgets.py:458-480),
`drawCircles` (src/ui/widgets.py:214-224), the loop of `updateSelection`
(IrisSoftware/widgets.py:731-735) and the loop of `SelectionGroup.__setupUI`
(IrisSoftware/widgets.py:740-747), which is modelled in the
`SelectionGroup` constructor. `getCircleLocations`
(src/ui/widgets.py:187-212) is straight-line code, and so is its model.

Some behaviours of the code are easy to miss. The model states each one:

- `src` `cancelCalibration` closes the window and keeps the captured
  samples (src/ui/widgets.py:28-30).
- The two eye filters order differently. The prototype sorts boxes by
  their top edge (detectEyes.py:8). `IrisSoftware` sorts the centres by
  their `y` (IrisSoftware/detectEyes.py:18).
- A full pass of the `src` calibration widget captures one sample fewer
  than it has circles. Space on the last circle emits `completed` without
  a capture (src/ui/widgets.py:228-237).
- In the `IrisSoftware` window, Space pressed before calibration begins
  already emits a capture. The `activeCircleIndex is not None` test is
  always true (IrisSoftware/widgets.py:441-451).
- When `detectEyes` is given no detector type, it uses the eye cascade.
  This is `IrisDetectEyes.DefaultDetectorType`
  (IrisSoftware/detectEyes.py:30).

## Model

| member | source | states |
|---|---|---|
| Common.Round | IrisSoftware/detectEyes.py:55-57 | Python `round`: the result is within 0.5 of the argument, and on a tie it is even |
| Common.RoundIsUnique | IrisSoftware/detectEyes.py:55-57 | any integer within 0.5 that is even on a tie is the rounded value, so `Round` is Python's `round` and no other |
| Common.RoundShift | IrisSoftware/detectEyes.py:113 | rounding after adding an integer differs by at most one from adding after rounding |
| Common.RoundOfInteger | IrisSoftware/detectEyes.py:137 | rounding a whole number returns it |
| IrisDetectEyes.TupleAdd | IrisSoftware/detectEyes.py:55-57 | each coordinate is within 0.5 of the componentwise sum and is even on a tie |
| IrisDetectEyes.CentreIsInsideBox | IrisSoftware/detectEyes.py:6-11 | the rounded centre of a box of non-negative size lies inside the box |
| IrisDetectEyes.Centre | IrisSoftware/detectEyes.py:10 | the rounded centre is within half a pixel of the exact centre on each axis; for an odd size the tie goes to the even pixel |
| IrisDetectEyes.CenterCoordinates | IrisSoftware/detectEyes.py:6-11 | one point per box, in order; point i is the rounded centre of box i |
| IrisDetectEyes.FilterFalsePositives | IrisSoftware/detectEyes.py:14-19 | `min(2, n)` points, all taken from the input |
| IrisDetectEyes.FilterKeepsTopmost | IrisSoftware/detectEyes.py:14-19 | the filter keeps min(2, n) of the points, in ascending y; no dropped point lies above a kept one |
| IrisDetectEyes.FilterIsStable | IrisSoftware/detectEyes.py:14-19 | the kept points at each height are the first points of that height in the input, in input order; the sort keeps every height's points in input order |
| IrisDetectEyes.GetPupils | IrisSoftware/detectEyes.py:60-62 | one point per pair of keypoint list and box, as `zip` truncates; an empty keypoint list gives the box centre, otherwise the point is within half a pixel of the first keypoint moved by the box origin, an exact half going to the even pixel |
| IrisDetectEyes.GetPupilsFallback | IrisSoftware/detectEyes.py:60-62 | an empty keypoint list gives the box's rounded centre; otherwise the first keypoint plus the box origin, rounded |
| IrisDetectEyes.BlobsFor | IrisSoftware/detectEyes.py:65-95 | the blob detector is asked once per eye box |
| IrisDetectEyes.EyeCascadeDetector | IrisSoftware/detectEyes.py:48-52 | one point per eye box, point i the rounded centre of box i |
| IrisDetectEyes.EyeCascadeBlobDetector | IrisSoftware/detectEyes.py:65-95 | one point per eye box: the box centre when no blob was found in it, otherwise within half a pixel of the first keypoint moved by the box origin, an exact half going to the even pixel |
| IrisDetectEyes.FaceEyeCascadeDetector | IrisSoftware/detectEyes.py:98-113 | no face gives `[]`; otherwise one point per eye box found in the largest face, the rounded centre of that box moved by the face origin before rounding |
| IrisDetectEyes.FaceEyeCascadeBlobDetector | IrisSoftware/detectEyes.py:116-137 | no face gives `[]`; otherwise one point per eye box found in the largest face |
| IrisDetectEyes.RawDetection | IrisSoftware/detectEyes.py:32-42 | the eye-cascade detectors give one point per eye box; the face-first detectors give `[]` without a face and one point per eye of the largest face otherwise |
| IrisDetectEyes.LargestFace | IrisSoftware/detectEyes.py:106 | `max` by `w*h`: the index of a face of maximal area, the first one on ties |
| IrisDetectEyes.DetectEyes | IrisSoftware/detectEyes.py:29-45 | an unknown detector type, and only that, raises `ValueError` |
| IrisDetectEyes.DetectEyesReturnsTopTwo | IrisSoftware/detectEyes.py:14-45 | every known detector type gives at most two points, ascending in y, taken from the detector's points; no dropped point lies above a kept one, and at each height the kept points are the earliest detections of that height |
| IrisDetectEyes.NoFaceNoEyes | IrisSoftware/detectEyes.py:98-122 | with no face both face-first detectors, and `detectEyes` for them, return `[]` |
| IrisDetectEyes.FacePointsNearOffsetCentres | IrisSoftware/detectEyes.py:98-113 | one point per eye box in the largest face, each within one pixel per axis of the box's rounded centre moved by the face origin |
| IrisDetectEyes.FaceBlobPointsAreOffset | IrisSoftware/detectEyes.py:116-137 | one point per eye box in the largest face; each is that box's pupil point moved exactly by the face origin |
| IrisDetectEyes.FaceRoundingExample | IrisSoftware/detectEyes.py:113 | a tie where rounding after the offset (4) differs from offsetting the rounded centre (3) |
| StableSort.Insert | IrisSoftware/detectEyes.py:18 | insertion keeps the elements (as a multiset) and adds one |
| StableSort.Sort | IrisSoftware/detectEyes.py:18 | `sorted` returns a permutation of its input |
| StableSort.SortIsOrdered | IrisSoftware/detectEyes.py:18 | `sorted` returns its input in ascending key order |
| StableSort.SortIsStable | IrisSoftware/detectEyes.py:18 | the elements of each key keep their input order |
| StableSort.StableSortIsUnique | IrisSoftware/detectEyes.py:18 | two key-ordered sequences with the same elements per key, in the same order, are equal |
| StableSort.SortIsTheStableSort | IrisSoftware/detectEyes.py:18 | any ordered, stable rearrangement of the input is the result of `Sort` |
| StableSort.SortPrefixKeepsSmallest | IrisSoftware/detectEyes.py:18 | a prefix of the sort holds points whose keys are no larger than those left out |
| StableSort.Map | IrisSoftware/detectEyes.py:10 | a list comprehension: same length, element i is the function of input element i |
| StableSort.SortCommutesWithMap | detectEyes.py:8 | sorting after a key-preserving map equals mapping after sorting |
| StableSort.SortSameOrder | detectEyes.py:8 | two keys that order the elements alike give the same stable sort |
| RootDetectEyes.DetectEyes | detectEyes.py:3-8 | `min(2, n)` points, each the rounded centre of one of the reported boxes |
| RootDetectEyes.DetectEyesKeepsTopmostBoxes | detectEyes.py:3-8 | min(2, n) points, the centres of the boxes with the smallest top edge, in ascending order; no dropped box starts higher than a kept one |
| RootDetectEyes.EvenHeightCentre | detectEyes.py:8 | for an even height the y of the centre is exact: `y + h/2` |
| RootDetectEyes.AgreesWithIrisOnEvenEqualHeights | detectEyes.py:8 | when all boxes share one even height, the prototype and the `IrisSoftware` filter return the same points |
| RootDetectEyes.DiffersFromIrisOnMixedHeights | detectEyes.py:8 | boxes of different heights where the two filters choose different eyes |
| IrisScreenCoords.UnpackEyeCoords | IrisSoftware/computeScreenCoords.py:16-18 | one row per sample |
| IrisScreenCoords.UnpackEyeCoordsFlattens | IrisSoftware/computeScreenCoords.py:16-18 | the sample `[(a,b),(c,d)]` becomes the row `(a,b,c,d)` |
| IrisScreenCoords.UnpackEyeCoordsRoundTrip | IrisSoftware/computeScreenCoords.py:16-18 | a row of a sample of pairs is twice as long and splits back into the sample |
| IrisScreenCoords.ConcatLength | IrisSoftware/computeScreenCoords.py:18 | joining n pairs gives 2n items |
| IrisScreenCoords.PairsOfConcat | IrisSoftware/computeScreenCoords.py:18 | splitting joined pairs gives back the pairs |
| IrisScreenCoords.UnpackScreenCoords | IrisSoftware/computeScreenCoords.py:20-22 | an empty list, and only that, raises `ValueError`; otherwise two lists as long as the input |
| IrisScreenCoords.UnpackScreenCoordsRoundTrip | IrisSoftware/computeScreenCoords.py:20-22 | zipping the two lists reproduces the points, and lists that zip to the points are the result |
| IrisScreenCoords.SumTuples | IrisSoftware/computeScreenCoords.py:18 | `sum(items, start)` on tuples extends `start`, or raises `TypeError` |
| IrisScreenCoords.SumOfTuplesIsConcat | IrisSoftware/computeScreenCoords.py:18 | summing tuples onto a start tuple joins them all after it |
| IrisScreenCoords.Iterate | IrisSoftware/computeScreenCoords.py:18 | only tuples and lists can be iterated; anything else raises `TypeError` |
| IrisScreenCoords.UnpackEyeCoordsOf | IrisSoftware/computeScreenCoords.py:16-18 | on Python values: one row per sample, or `TypeError` |
| IrisScreenCoords.UnpackOfSamples | IrisSoftware/computeScreenCoords.py:16-18 | on samples made of tuples, the dynamic version agrees with the typed flattening |
| IrisScreenCoords.UnpackRejectsBarePoint | IrisSoftware/computeScreenCoords.py:18 | a list whose first entry is a point of numbers, not a list of points, raises `TypeError` |
| IrisScreenCoords.Evaluate | IrisSoftware/computeScreenCoords.py:24-41 | the linear model answers each row; the regression model answers only the last row and raises on no rows |
| IrisScreenCoords.RegressionUsesOnlyLastRow | IrisSoftware/computeScreenCoords.py:31-34 | inputs with the same last row give the same regression estimate |
| IrisScreenCoords.ComputeScreenCoordsIn | IrisSoftware/computeScreenCoords.py:75-79 | unpacking errors surface; an uncalibrated object raises `ValueError`; otherwise the stored model's answer for the rows |
| IrisScreenCoords.CalibrationIn | IrisSoftware/computeScreenCoords.py:54-65 | `LINEAR` and `LINEAR_REGRESSION` fail exactly when the samples do not unpack or there are no screen points; a failure is `TypeError` or `ValueError` and keeps the old model; success installs a model of the requested kind; other types change nothing |
| IrisScreenCoords.CalibrationIgnoresOtherTypes | IrisSoftware/computeScreenCoords.py:54-65 | any type other than `LINEAR` or `LINEAR_REGRESSION` leaves the interpolator as it was |
| IrisScreenCoords.CalibrationFits | IrisSoftware/computeScreenCoords.py:54-65 | `LINEAR` and `LINEAR_REGRESSION` replace the interpolator by one fitted on the flattened rows and the unzipped screen coordinates |
| IrisScreenCoords.CalibrationWithoutScreenPoints | IrisSoftware/computeScreenCoords.py:54-65 | no screen points raises `ValueError` and leaves the interpolator as it was |
| IrisScreenCoords.UncalibratedRaises | IrisSoftware/computeScreenCoords.py:75-79 | a fresh object raises `ValueError` on any list of samples |
| IrisScreenCoords.Interpolator.constructor | IrisSoftware/computeScreenCoords.py:51-52 | a new object holds no model |
| IrisScreenCoords.Interpolator.CalibrateInterpolatorManual | IrisSoftware/computeScreenCoords.py:54-65 | the new model and outcome are those of the calibration step |
| IrisScreenCoords.Interpolator.CalibrateInterpolator | IrisSoftware/computeScreenCoords.py:67-73 | a missing file raises `ValueError` before anything changes; otherwise the loaded record is calibrated on |
| IrisScreenCoords.Interpolator.ComputeScreenCoords | IrisSoftware/computeScreenCoords.py:75-79 | the estimate is that of the stored model, or the error |
| SrcScreenCoords.ComputeScreenCoordsIn | src/computeScreenCoords.py:44-49 | without the attribute it raises `AttributeError`, never `ValueError`; after calibration the linear model's answer for the rows |
| SrcScreenCoords.CalibrationIn | src/computeScreenCoords.py:35-42 | `LINEAR` fails exactly when the samples do not unpack or there are no screen points, keeping the object as it was; success stores the attribute; other types change nothing |
| SrcScreenCoords.CalibrationOnlyForLinear | src/computeScreenCoords.py:35-42 | only `LINEAR` changes the object; it stores a linear model fitted on the rows |
| SrcScreenCoords.ComputeBeforeAndAfterCalibration | src/computeScreenCoords.py:31-49 | before calibration the attribute read fails; afterwards the linear model answers each row |
| SrcScreenCoords.Interpolator.constructor | src/computeScreenCoords.py:31-33 | the misspelt `__init` is never called, so a new object has no interpolator attribute |
| SrcScreenCoords.Interpolator.CalibrateInterpolator | src/computeScreenCoords.py:35-42 | the new state and outcome are those of the `LINEAR`-only calibration step |
| SrcScreenCoords.Interpolator.ComputeScreenCoords | src/computeScreenCoords.py:44-49 | the estimate of the stored model, or `AttributeError` |
| SrcScreenCoords.ComputeScreenCoordsStub | src/computeScreenCoords.py:51-52 | the module-level `computeScreenCoords` returns `None` for every input |
| IrisMain.ScaledThreshold | IrisSoftware/main.py:83-86 | the threshold is a multiple of 5; it is at least 45 exactly for slider values from 1 on, and at most 90 exactly for values up to 10 |
| IrisMain.ScaledThresholdIsMonotone | IrisSoftware/main.py:83-86 | the threshold is `45 + 5*(value-1)`: 45 for 1, 90 for 10, strictly increasing, 5 per step |
| IrisMain.DetectionTypeFor | IrisSoftware/main.py:88-96 | only the two known options pick a detector, and both pick a blob detector |
| IrisMain.DetectionTypeForIsInjective | IrisSoftware/main.py:88-96 | the two options pick different detectors; `ACCURACY`, and only it, picks the face-first blob detector |
| IrisMain.Smooth | IrisSoftware/main.py:59-71 | the first call goes to the target; later calls land between the last position and the target, leaving nine tenths of the gap on each axis |
| IrisMain.SmoothStep | IrisSoftware/main.py:59-71 | a later step lands between the last position and the target, closing 10% of the gap; a target equal to the last position stays put |
| IrisMain.SmoothingConverges | IrisSoftware/main.py:59-71 | after n steps towards a fixed target the gap is 0.9^n of the first gap |
| IrisMain.PowBounds | IrisSoftware/main.py:59-71 | the remaining fraction 0.9^n lies in (0, 1] |
| IrisMain.IrisSoftware.MoveMouse | IrisSoftware/main.py:54-71 | the cursor moves to the smoothed position (the target itself on the first call), which is recorded as the last position |
| IrisMain.Fallback | IrisSoftware/main.py:75-79 | the last position when there is one; otherwise half the resolution, rounded down |
| IrisMain.SafeComputeCoordsIn | IrisSoftware/main.py:73-81 | with fewer than two eyes the fallback position; with two or more eyes (corrected) it fails exactly when uncalibrated, always with `ValueError` |
| IrisMain.SafeComputeCoordsAsWritten | IrisSoftware/main.py:73-81 | with fewer than two eyes the fallback position; it fails only with two or more eyes, with `TypeError` or `ValueError` |
| IrisMain.FallbackHoldsStill | IrisSoftware/main.py:75-79 | with fewer than two eyes the model is not consulted: the last position, or else the centre `(w//2, h//2)` |
| IrisMain.TwoEyesAskTheModel | IrisSoftware/main.py:81 | with two eyes (corrected) the estimate is the model's answer for the row `(x1,y1,x2,y2)`, or `ValueError` when uncalibrated |
| IrisMain.AsWrittenRaisesOnEveryDetection | IrisSoftware/main.py:81 | as written, every frame with two or more eyes raises `TypeError` |
| IrisMain.IrisSoftware.SafeComputeCoords | IrisSoftware/main.py:73-81 | the result of the corrected `safeComputeCoords` for the current state |
| IrisMain.SampleFor | IrisSoftware/main.py:102-108 | fewer than two eyes store the sentinel `[(None, None), (None, None)]`; otherwise a list of the points as `(x, y)` tuples, in order |
| IrisMain.RowFor | IrisSoftware/main.py:102-108 | a sentinel sample flattens to four `None`s; otherwise to `x0, y0, x1, y1, ...`, two items per point |
| IrisMain.PointsFlatten | IrisSoftware/computeScreenCoords.py:18 | joining the `(x, y)` tuples of n points gives 2n items, point i at positions 2i and 2i+1 |
| IrisMain.CapturedSamplesUnpack | IrisSoftware/main.py:102-108 | captured samples unpack to one row each: `(x1,y1,x2,y2)` for two eyes, four `None`s for the sentinel |
| IrisMain.SavedSamplesFit | IrisSoftware/main.py:111-131 | a saved record, loaded with at least one circle location, fits the regression model on exactly the captured rows |
| IrisMain.EyeDetection.constructor | IrisSoftware/main.py:31 | the detector settings hold the given threshold and detector type |
| IrisMain.State.constructor | IrisSoftware/main.py:21-25 | not exiting, not calibrated, no samples, no last position |
| IrisMain.IrisSoftware.constructor | IrisSoftware/main.py:27-44 | fresh state and an uncalibrated interpolator, with the given detector settings |
| IrisMain.IrisSoftware.LoadSavedCalibration | IrisSoftware/main.py:46-49 | an existing file sets `isCalibrated` and calibrates the interpolator from the loaded record; a missing one changes nothing |
| IrisMain.IrisSoftware.ChangeEyeColorThreshold | IrisSoftware/main.py:83-86 | the blob threshold becomes the scaled value; the detector type is kept |
| IrisMain.IrisSoftware.ChangePupilModel | IrisSoftware/main.py:88-96 | a known option sets its detector; any other value changes nothing |
| IrisMain.IrisSoftware.ResetCalibrationEyeCoords | IrisSoftware/main.py:98-100 | the sample list becomes empty and nothing else changes |
| IrisMain.IrisSoftware.CaptureCalibrationEyeCoords | IrisSoftware/main.py:102-109 | exactly one sample is appended, the sentinel when fewer than two eyes are seen; nothing else changes |
| IrisMain.IrisSoftware.SaveCalibrationData | IrisSoftware/main.py:111-131 | the record holds the samples and the circle locations; then the sample list is empty |
| IrisWidgets.CheckCloseKeyCombo | IrisSoftware/widgets.py:27-30 | true exactly for W with Control as the only modifier |
| IrisWidgets.CheckMenuKeyCombo | IrisSoftware/widgets.py:33-36 | true exactly for 1 with Control as the only modifier |
| IrisWidgets.CheckCancelKey | IrisSoftware/widgets.py:39-40 | true for Escape, whatever the modifiers |
| IrisWidgets.CheckContinueKey | IrisSoftware/widgets.py:43-44 | true for Enter or Return, whatever the modifiers |
| IrisWidgets.CheckIncreaseArrowKey | IrisSoftware/widgets.py:47-48 | true for Right or Up, whatever the modifiers |
| IrisWidgets.CheckDecreaseArrowKey | IrisSoftware/widgets.py:51-52 | true for Left or Down, whatever the modifiers |
| IrisWidgets.KeyPredicatesAreExclusive | IrisSoftware/widgets.py:27-52 | cancel, continue and the arrow keys exclude each other; each key combination is exactly its key with only Control held |
| IrisWidgets.Ceil | IrisSoftware/widgets.py:61 | `math.ceil`: the least integer not below the argument |
| IrisWidgets.CalculatePreviewSize | IrisSoftware/widgets.py:55-61 | a zero camera height raises `ZeroDivisionError`; otherwise the height is 480 and the width is the scaled width rounded up |
| IrisWidgets.PreviewWidthIsLeastCovering | IrisSoftware/widgets.py:55-61 | the width is the least w with `w*camH >= camW*480` |
| IrisWidgets.PreviewSizeExamples | IrisSoftware/widgets.py:55-61 | 1280×720 gives 854×480, 640×480 stays |
| IrisWidgets.PressStep | IrisSoftware/widgets.py:441-456 | the index never moves; Enter or Return on an empty window adds the 25 circles; Space captures exactly when not held off and then holds off; Escape or Ctrl+W cancels unless the press captured |
| IrisWidgets.ProgressStep | IrisSoftware/widgets.py:422-431 | `IndexError` exactly when the index is outside Python's range; completion exactly on the last circle; otherwise the index moves one on and Space is accepted again; the state changes only then |
| IrisWidgets.StepsKeepReachable | IrisSoftware/widgets.py:422-456 | key presses and progress keep the index inside the grid; progress fails before the grid exists and completes on the last circle |
| IrisWidgets.StepBoundsCaptures | IrisSoftware/widgets.py:422-456 | one event moves the index by its advance and captures only when the hold-off flag is clear |
| IrisWidgets.RunBoundsCaptures | IrisSoftware/widgets.py:422-456 | over any event sequence, captures never outrun advances plus the hold-off flag |
| IrisWidgets.AtMostOneCapturePerCircle | IrisSoftware/widgets.py:441-451 | from a fresh window at most one capture per activated circle, 25 at most |
| IrisWidgets.SpaceBeforeBeginCaptures | IrisSoftware/widgets.py:441-451 | Space on a fresh window, before calibration begins, emits a capture |
| IrisWidgets.CalibrationCircle.constructor | IrisSoftware/widgets.py:575-583 | a new circle is inactive |
| IrisWidgets.CalibrationCircle.ToggleActive | IrisSoftware/widgets.py:547-549 | `active` flips |
| IrisWidgets.CalibrationWindow.constructor | IrisSoftware/widgets.py:520-533 | no circles, index 0, Space accepted |
| IrisWidgets.CalibrationWindow.DrawCircles | IrisSoftware/widgets.py:458-480 | 25 new inactive circles are appended after the existing ones, all distinct |
| IrisWidgets.CalibrationWindow.BeginCalibration | IrisSoftware/widgets.py:415-419 | the 25 circles are drawn and the active circle is toggled on |
| IrisWidgets.CalibrationWindow.ProgressCalibration | IrisSoftware/widgets.py:422-431 | the new state and result are those of the progress step; the active circle moves one on |
| IrisWidgets.CalibrationWindow.KeyPressEvent | IrisSoftware/widgets.py:441-456 | the new state and signal are those of the key step |
| IrisWidgets.Button.constructor | IrisSoftware/widgets.py:616-622 | the label and the variant are those given |
| IrisWidgets.Button.ChangeVariant | IrisSoftware/widgets.py:588-590 | the variant becomes the one given |
| IrisWidgets.LastIndexMappingGrows | IrisSoftware/widgets.py:737-748 | building the label mapping in order maps each label to its last index |
| IrisWidgets.SelectionGroup.constructor | IrisSoftware/widgets.py:718-748 | one distinct button per option; only the initial selection is primary |
| IrisWidgets.SelectionGroup.MarkPrimary | IrisSoftware/widgets.py:731-735 | the button at the target index becomes primary and every other button base |
| IrisWidgets.SelectionGroup.UpdateSelection | IrisSoftware/widgets.py:728-735 | an unknown label raises `KeyError` and changes nothing; otherwise exactly the mapped button is primary and all others base |
| SrcWidgets.Columns | src/ui/widgets.py:187-212 | three columns: flush left at 0, centred on the screen's centre x, and ending at its right edge |
| SrcWidgets.Rows | src/ui/widgets.py:187-212 | three rows: flush top at 0, centred on the screen's centre y, and ending 35 pixels above its bottom |
| SrcWidgets.GridFitsScreen | src/ui/widgets.py:187-212 | on a large enough screen, columns and rows increase, every circle lies on the screen, and the nine locations are distinct |
| SrcWidgets.CalibrationWidget.GetCircleLocations | src/ui/widgets.py:187-212 | nine locations in row-major order: x in 0, centreX-40, right-80; y in 0, centreY-40, bottom-80-35 |
| SrcWidgets.CalibrationWidget.DrawCircles | src/ui/widgets.py:214-224 | nine new distinct, shown, inactive circles at the nine locations, after the existing ones |
| SrcWidgets.CalibrationWidget.BeginCalibration | src/ui/widgets.py:181-185 | nine new, distinct, shown circles at the grid locations, row by row, are appended; the circle at the active index is toggled and every other circle keeps its flags; from an empty widget the first circle is active and the widget is valid |
| SrcWidgets.CalibrationWidget.KeyPressEvent | src/ui/widgets.py:226-239 | the new state and signal are those of the key step |
| SrcWidgets.PressStep | src/ui/widgets.py:226-239 | keys other than Space are only passed on; Space captures exactly when a circle lies ahead, moving to it; otherwise it completes and changes nothing |
| SrcWidgets.PressStepKeepsReachable | src/ui/widgets.py:226-239 | Space on a non-last circle captures and moves one on; on the last circle, or before any exists, it completes |
| SrcWidgets.RunCountsCaptures | src/ui/widgets.py:226-239 | over any key sequence the index moves by exactly the number of captures and stays in range |
| SrcWidgets.SpacePresses | src/ui/widgets.py:226-239 | k Space presses capture min(k, circles ahead) times and complete the rest |
| SrcWidgets.FullPassCapturesAllButLast | src/ui/widgets.py:228-237 | a full pass over n circles captures n-1 samples and completes once |
| SrcWidgets.SpaceBeforeBeginCompletes | src/ui/widgets.py:228-232 | Space before calibration begins emits `completed` |
| SrcWidgets.CalibrationWidget.constructor | src/ui/widgets.py:279-289 | no circles, index 0 |
| SrcWidgets.CalibrationCircle.constructor | src/ui/widgets.py:312-319 | a new circle at the given location, inactive and shown |
| SrcWidgets.CalibrationCircle.ToggleActive | src/ui/widgets.py:300-302 | `active` flips |
| SrcWidgets.CalibrationCircle.Detach | src/ui/widgets.py:235 | the circle is no longer shown; `active` is kept |
| SrcWidgets.MainWidget.constructor | src/ui/widgets.py:141-166 | no samples, no window, preview 640×480 |
| SrcWidgets.MainWidget.OpenCalibrationWindow | src/ui/widgets.py:33-41 | a fresh window with no circles; the samples are kept |
| SrcWidgets.MainWidget.CaptureEyeLocationForCalibration | src/ui/widgets.py:56-61 | exactly one sample is appended |
| SrcWidgets.MainWidget.CloseCalibrationWindow | src/ui/widgets.py:63-67 | the window is dropped; with none open the attribute access raises |
| SrcWidgets.MainWidget.FinalizeCalibration | src/ui/widgets.py:44-53 | the samples are handed out for saving and the list becomes empty; then the window is closed |
| SrcWidgets.MainWidget.CancelCalibration | src/ui/widgets.py:28-30 | the window is closed and the samples are kept |

## Left out

- OpenCV image operations are not modelled: grey conversion, the cascades, thresholding, the blob detector, drawing and the demos. Their results are parameters.
- The crops in `faceEyeCascadeBlobDetector` and `eyeCascadeBlobDetector` are modelled as the source writes them. The blob detector is asked about the box it was given. No claim is made about whether face-box coordinates address the right pixels.
- The sklearn `LinearRegression` and scipy `LinearNDInterpolator` fitting is foreign floating-point code. Fitted models are function values. Fitting errors and length mismatches between rows and screen points are not modelled.
- The `RBFInterpolator` stub (IrisSoftware/computeScreenCoords.py:43-48) is not modelled; it is never constructed by the calibration step.
- Pickle and file I/O are not modelled. Only the file-exists guard remains, as a boolean. The loaded record is a parameter.
- The camera, the processing thread, `run`, `detectBlink`, `pyautogui`, the Qt layout, styling and signals, `getPreviewImageFromFrame`, `mapToGlobal` and the other windows are not modelled. The IrisSoftware `getCircleLocations`, `positionInTopRightCorner` and `showMinimized` are also left out. All of these are I/O, concurrency or foreign toolkit calls.
- `EyeDetection` comes from a module that is not part of this model. Its two settings are fields that `ChangeEyeColorThreshold` and `ChangePupilModel` write.
- Floating-point arithmetic is modelled as exact real arithmetic: the smoothing, the preview-size division and the keypoint coordinates.
- The macOS Command modifier mapping is not modelled. Control is the modifier.
- IrisDetectEyes.LargestFace: requires a non-empty face list. Python's `max` would raise on an empty list, but the source always returns `[]` first in that case.
- IrisMain.IrisSoftware.constructor: models the attribute set-up of `__init__`. The loading of the saved calibration at IrisSoftware/main.py:46-49 is the separate `LoadSavedCalibration`.
- SrcScreenCoords.ComputeScreenCoordsIn: the `ValueError` branch at src/computeScreenCoords.py:47-48 cannot be reached, because no path stores `None`; the contract states that it never raises.
- RootDetectEyes.DetectEyes: each point is `map(round, ...)`, a lazy iterator in Python 3. It is modelled as the pair it yields.
- IrisWidgets.CalibrationWindow.BeginCalibration: states the full new state only for a window with no circles yet. A second press is not possible, because the Begin button is removed after the first press.
- SrcWidgets.CalibrationWidget.BeginCalibration: states the full new state only for a widget with no circles yet. A second call does not happen in the source: `drawCircles` ends with `setCentralWidget(circlesWidget)` (src/ui/widgets.py:224), which replaces the container that holds the Begin button.
- SrcWidgets.CalibrationWidget.GetCircleLocations: `size/2` is a float in Python; with `size = 80` it is the whole number 40, which the model uses.
- SrcWidgets.MainWidget: the element type of the sample list is what `getEyesFromFrame` returns; that value is a parameter.

## Findings

| source | as written | input that shows it | evidently intended | confidence | as-written member | corrected member |
|---|---|---|---|---|---|---|
| IrisSoftware/main.py:81 | `safeComputeCoords` passes the detection, a list of points, straight to `computeScreenCoords`. That call unpacks each point as if it were a sample, so `sum` is asked to add numbers to `()` and raises `TypeError` | any two-eye detection, e.g. `[(1, 2), (3, 4)]` | pass `[eyeCoords]`, one sample, so that it unpacks to the row `(x1, y1, x2, y2)` the model was fitted on | medium; not executed | IrisMain.AsWrittenRaisesOnEveryDetection | IrisMain.TwoEyesAskTheModel |
