/** The runtime logic of `IrisSoftware/main.py`: program state, cursor
    smoothing, the hold-still fallback, the settings callbacks and the
    calibration-sample list. The camera, the UI, `pyautogui`, the processing
    thread and pickling are outside the model: what they would supply (a
    resolution, detections, circle locations, whether the calibration file
    exists and what it holds) arrives as parameters. */
module IrisMain {
  import opened Common
  import StableSort
  import Detect = IrisDetectEyes
  import Screen = IrisScreenCoords

  datatype PupilModelOption = Accuracy | Speed

  // ---------------------------------------------------------------------------
  // Pure logic

  /** `changeEyeColorThreshold`'s scaling of a slider value. */
  function ScaledThreshold(value: int): (r: int)
    ensures r % 5 == 0
    ensures r >= 45 <==> value >= 1
    ensures r <= 90 <==> value <= 10
  {
    45 + 5 * (value - 1)
  }

  /** The scaling starts at 45, is strictly increasing in steps of 5, and maps
      the slider range 1..10 onto 45..90. */
  lemma ScaledThresholdIsMonotone(v: int, w: int)
    ensures ScaledThreshold(1) == 45 && ScaledThreshold(10) == 90
    ensures v < w ==> ScaledThreshold(v) < ScaledThreshold(w)
    ensures ScaledThreshold(w) - ScaledThreshold(v) == 5 * (w - v)
    ensures 1 <= v <= 10 ==> 45 <= ScaledThreshold(v) <= 90 && ScaledThreshold(v) % 5 == 0
  {
  }

  /** `changePupilModel`'s choice of detector: `ACCURACY` finds the eyes
      within the largest face, `SPEED` runs the eye cascade on the whole frame;
      both locate the pupil with the blob detector. Anything else chooses nothing. */
  function DetectionTypeFor(value: Tagged<PupilModelOption>): (r: Option<Detect.DetectionType>)
    ensures r.None? <==> value.Foreign?
    ensures r.Some? ==> r.value == Detect.FaceEyeCascadeBlob || r.value == Detect.EyeCascadeBlob
  {
    match value
    case Member(Accuracy) => Some(Detect.FaceEyeCascadeBlob)
    case Member(Speed) => Some(Detect.EyeCascadeBlob)
    case Foreign => None
  }

  /** The two options select different detectors, and each option is
      recovered from the detector it selects. */
  lemma DetectionTypeForIsInjective(a: PupilModelOption, b: PupilModelOption)
    ensures DetectionTypeFor(Member(a)) == DetectionTypeFor(Member(b)) <==> a == b
    ensures DetectionTypeFor(Member(a)) == Some(Detect.FaceEyeCascadeBlob) <==> a == Accuracy
  {
  }

  /** A cursor position; `moveMouse` receives and stores floating-point
      coordinates, modelled as reals. */
  type Cursor = (real, real)

  /** The position `moveMouse` moves to: the target itself on the first call,
      otherwise one tenth of the way from the last position to the target. */
  function Smooth(last: Option<Cursor>, target: Cursor): (r: Cursor)
    ensures last.None? ==> r == target
    ensures last.Some? ==> Between(last.value.0, r.0, target.0) && Between(last.value.1, r.1, target.1)
    ensures last.Some? ==> target.0 - r.0 == 0.9 * (target.0 - last.value.0) && target.1 - r.1 == 0.9 * (target.1 - last.value.1)
  {
    match last
    case None => target
    case Some(l) => (l.0 + (target.0 - l.0) * 0.1, l.1 + (target.1 - l.1) * 0.1)
  }

  predicate Between(a: real, x: real, b: real) {
    (a <= x <= b) || (b <= x <= a)
  }

  /** After the first call, each step lands between the last position and the
      target, leaves nine tenths of the distance to go, and stays put when the
      target is where the cursor already is. */
  lemma SmoothStep(l: Cursor, target: Cursor)
    ensures Between(l.0, Smooth(Some(l), target).0, target.0) && Between(l.1, Smooth(Some(l), target).1, target.1)
    ensures target.0 - Smooth(Some(l), target).0 == 0.9 * (target.0 - l.0)
    ensures target.1 - Smooth(Some(l), target).1 == 0.9 * (target.1 - l.1)
    ensures target == l ==> Smooth(Some(l), target) == l
  {
  }

  function Pow(x: real, n: nat): real {
    if n == 0 then 1.0 else x * Pow(x, n - 1)
  }

  /** The position after `n` further calls with the same target. */
  function SmoothedAfter(start: Cursor, target: Cursor, n: nat): Cursor {
    if n == 0 then start else Smooth(Some(SmoothedAfter(start, target, n - 1)), target)
  }

  /** Held on one target, the cursor closes the gap geometrically: after `n`
      calls the remaining distance on each axis is `0.9^n` of the first. */
  lemma {:induction false} SmoothingConverges(start: Cursor, target: Cursor, n: nat)
    ensures target.0 - SmoothedAfter(start, target, n).0 == Pow(0.9, n) * (target.0 - start.0)
    ensures target.1 - SmoothedAfter(start, target, n).1 == Pow(0.9, n) * (target.1 - start.1)
  {
    if n > 0 {
      SmoothingConverges(start, target, n - 1);
      var p := SmoothedAfter(start, target, n - 1);
      var next := Smooth(Some(p), target);
      assert SmoothedAfter(start, target, n) == next;
      assert Pow(0.9, n) == 0.9 * Pow(0.9, n - 1);
      SmoothStep(p, target);
      GapShrinks(target.0, p.0, next.0, Pow(0.9, n - 1), target.0 - start.0);
      GapShrinks(target.1, p.1, next.1, Pow(0.9, n - 1), target.1 - start.1);
    }
  }

  /** One axis of the step of `SmoothingConverges`. */
  lemma GapShrinks(t: real, p: real, next: real, q: real, d: real)
    requires t - p == q * d && t - next == 0.9 * (t - p)
    ensures t - next == (0.9 * q) * d
  {
  }

  /** The factor `0.9^n` lies in (0, 1], so the cursor never overshoots. */
  lemma {:induction false} PowBounds(n: nat)
    ensures 0.0 < Pow(0.9, n) <= 1.0
  {
    if n > 0 { PowBounds(n - 1); }
  }

  /** A detected point as the tuple `(x, y)` Python holds. */
  function PointItems(p: Detect.Point): seq<Screen.PyValue> { [Screen.PyInt(p.0), Screen.PyInt(p.1)] }

  function PointTuple(p: Detect.Point): Screen.PyValue { Screen.PyTuple(PointItems(p)) }

  /** One calibration sample as stored: the list of detected points. */
  function Sample(points: seq<Detect.Point>): Screen.PyValue {
    Screen.AsSample(StableSort.Map(PointItems, points))
  }

  const NoneItems: seq<Screen.PyValue> := [Screen.PyNone, Screen.PyNone]

  /** The sample stored for a miss: `[(None, None), (None, None)]`. */
  const Sentinel: Screen.PyValue := Screen.AsSample([NoneItems, NoneItems])

  /** What `captureCalibrationEyeCoords` stores for one detection. */
  function SampleFor(detected: seq<Detect.Point>): (r: Screen.PyValue)
    ensures |detected| < 2 ==> r == Sentinel
    ensures |detected| >= 2 ==> r.PyList? && |r.elements| == |detected|
    ensures |detected| >= 2 && r.PyList? ==> forall i :: 0 <= i < |detected| ==> r.elements[i] == Screen.PyTuple([Screen.PyInt(detected[i].0), Screen.PyInt(detected[i].1)])
  {
    if |detected| < 2 then Sentinel else Sample(detected)
  }

  /** The flattened row that unpacking the stored sample yields. */
  function RowFor(detected: seq<Detect.Point>): (r: Screen.Row)
    ensures |detected| < 2 ==> r == [Screen.PyNone, Screen.PyNone, Screen.PyNone, Screen.PyNone]
    ensures |detected| >= 2 ==> |r| == 2 * |detected|
    ensures |detected| >= 2 && |r| == 2 * |detected| ==> forall i :: 0 <= i < |detected| ==> r[2 * i] == Screen.PyInt(detected[i].0) && r[2 * i + 1] == Screen.PyInt(detected[i].1)
  {
    if |detected| < 2 then NoneItems + NoneItems
    else
      PointsFlatten(detected);
      Screen.Concat(StableSort.Map(PointItems, detected))
  }

  /** Flattening points gives `x0, y0, x1, y1, ...`. */
  lemma {:induction false} PointsFlatten(points: seq<Detect.Point>)
    ensures var row := Screen.Concat(StableSort.Map(PointItems, points));
      && |row| == 2 * |points|
      && forall i :: 0 <= i < |points| ==> row[2 * i] == Screen.PyInt(points[i].0) && row[2 * i + 1] == Screen.PyInt(points[i].1)
  {
    if points != [] {
      var tuples := StableSort.Map(PointItems, points);
      assert tuples[1..] == StableSort.Map(PointItems, points[1..]);
      PointsFlatten(points[1..]);
      var rest := Screen.Concat(tuples[1..]);
      assert Screen.Concat(tuples) == PointItems(points[0]) + rest;
      forall i | 1 <= i < |points|
        ensures Screen.Concat(tuples)[2 * i] == Screen.PyInt(points[i].0)
        ensures Screen.Concat(tuples)[2 * i + 1] == Screen.PyInt(points[i].1)
      {
        assert points[1..][i - 1] == points[i];
        assert 2 * i == 2 * (i - 1) + 2;
      }
    }
  }

  /** The fields of each stored sample: a miss unpacks to four `None`s and a
      detection of two eyes (the most `detectEyes` returns) to `(x1, y1, x2, y2)`. */
  lemma {:induction false} CapturedSamplesUnpack(detections: seq<seq<Detect.Point>>)
    ensures Screen.UnpackEyeCoordsOf(StableSort.Map(SampleFor, detections)) == Ok(StableSort.Map(RowFor, detections))
    ensures forall i :: 0 <= i < |detections| && |detections[i]| == 2 ==>
      StableSort.Map(RowFor, detections)[i] ==
        [Screen.PyInt(detections[i][0].0), Screen.PyInt(detections[i][0].1), Screen.PyInt(detections[i][1].0), Screen.PyInt(detections[i][1].1)]
    ensures forall i :: 0 <= i < |detections| && |detections[i]| < 2 ==>
      StableSort.Map(RowFor, detections)[i] == [Screen.PyNone, Screen.PyNone, Screen.PyNone, Screen.PyNone]
  {
    UnpackCaptured(detections);
    forall i | 0 <= i < |detections| && |detections[i]| == 2
      ensures StableSort.Map(RowFor, detections)[i] ==
        [Screen.PyInt(detections[i][0].0), Screen.PyInt(detections[i][0].1), Screen.PyInt(detections[i][1].0), Screen.PyInt(detections[i][1].1)]
    {
      TwoPointRow(detections[i]);
    }
  }

  lemma {:induction false} UnpackCaptured(detections: seq<seq<Detect.Point>>)
    ensures Screen.UnpackEyeCoordsOf(StableSort.Map(SampleFor, detections)) == Ok(StableSort.Map(RowFor, detections))
  {
    if detections != [] {
      var d := detections[0];
      var samples := StableSort.Map(SampleFor, detections);
      SampleUnpacks(d);
      assert samples[0] == SampleFor(d);
      assert samples[1..] == StableSort.Map(SampleFor, detections[1..]);
      UnpackCaptured(detections[1..]);
      assert StableSort.Map(RowFor, detections) == [RowFor(d)] + StableSort.Map(RowFor, detections[1..]);
    }
  }

  /** One stored sample iterates to its points, whose items sum to its row. */
  lemma SampleUnpacks(d: seq<Detect.Point>)
    ensures Screen.Iterate(SampleFor(d)).Ok?
    ensures Screen.SumTuples(Screen.Iterate(SampleFor(d)).value, []) == Ok(RowFor(d))
  {
    var tuples := if |d| < 2 then [NoneItems, NoneItems] else StableSort.Map(PointItems, d);
    Screen.UnpackOfSamples([tuples]);
    assert StableSort.Map(Screen.AsSample, [tuples]) == [SampleFor(d)];
    assert Screen.UnpackEyeCoords([tuples]) == [Screen.Concat(tuples)];
    assert Screen.Concat([NoneItems, NoneItems]) == NoneItems + NoneItems by {
      assert [NoneItems, NoneItems][1..][1..] == [];
    }
    assert Screen.UnpackEyeCoordsOf([SampleFor(d)]) == Ok([RowFor(d)]);
    assert [SampleFor(d)][1..] == [];
  }

  lemma TwoPointRow(d: seq<Detect.Point>)
    requires |d| == 2
    ensures RowFor(d) == [Screen.PyInt(d[0].0), Screen.PyInt(d[0].1), Screen.PyInt(d[1].0), Screen.PyInt(d[1].1)]
  {
    var tuples := StableSort.Map(PointItems, d);
    assert tuples == [PointItems(d[0]), PointItems(d[1])];
    assert tuples[1..][1..] == [];
  }

  /** `safeComputeCoords` as the source writes it: the detection itself, a
      list of points, is passed where the interpolator expects a list of
      samples. */
  function SafeComputeCoordsAsWritten(last: Option<Cursor>, resolution: (int, int), fitted: Option<Screen.Fitted>,
                                      eyeCoords: seq<Detect.Point>): (r: Result<Screen.Estimate>)
    ensures |eyeCoords| < 2 ==> r == Ok(Screen.Single(Fallback(last, resolution)))
    ensures r.Err? ==> |eyeCoords| >= 2 && (r.error == TypeError || r.error.ValueError?)
  {
    if |eyeCoords| < 2 then Ok(Screen.Single(Fallback(last, resolution)))
    else Screen.ComputeScreenCoordsIn(fitted, StableSort.Map(PointTuple, eyeCoords))
  }

  /** As written, every frame with two eyes raises `TypeError`, calibrated or
      not: unpacking sums the numbers of the first point onto `()`. */
  lemma AsWrittenRaisesOnEveryDetection(last: Option<Cursor>, resolution: (int, int), fitted: Option<Screen.Fitted>,
                                        eyeCoords: seq<Detect.Point>)
    requires |eyeCoords| >= 2
    ensures SafeComputeCoordsAsWritten(last, resolution, fitted, eyeCoords) == Err(TypeError)
  {
    var v := StableSort.Map(PointTuple, eyeCoords);
    assert v[0] == Screen.PyTuple([Screen.PyInt(eyeCoords[0].0)] + [Screen.PyInt(eyeCoords[0].1)]);
    Screen.UnpackRejectsBarePoint(v, eyeCoords[0].0, [Screen.PyInt(eyeCoords[0].1)]);
  }

  /** The position used while fewer than two eyes are seen: the last cursor
      position, or else half the camera resolution (`//` rounds down). */
  function Fallback(last: Option<Cursor>, resolution: (int, int)): (c: Cursor)
    ensures last.Some? ==> c == last.value
    ensures last.None? && resolution.0 >= 0 && resolution.1 >= 0 ==>
      && 2.0 * c.0 <= resolution.0 as real < 2.0 * c.0 + 2.0
      && 2.0 * c.1 <= resolution.1 as real < 2.0 * c.1 + 2.0
  {
    match last
    case Some(p) => p
    case None => ((resolution.0 / 2) as real, (resolution.1 / 2) as real)
  }

  /** `safeComputeCoords` as evidently intended: the detection is passed as
      one sample, `[eyeCoords]`, so that it unpacks to one row. */
  function SafeComputeCoordsIn(last: Option<Cursor>, resolution: (int, int), fitted: Option<Screen.Fitted>,
                               eyeCoords: seq<Detect.Point>): (r: Result<Screen.Estimate>)
    ensures |eyeCoords| < 2 ==> r == Ok(Screen.Single(Fallback(last, resolution)))
    ensures |eyeCoords| >= 2 ==> (r.Err? <==> fitted.None?)
    ensures r.Err? ==> r.error.ValueError?
  {
    if |eyeCoords| < 2 then Ok(Screen.Single(Fallback(last, resolution)))
    else
      var tuples := StableSort.Map(PointItems, eyeCoords);
      Screen.UnpackOfSamples([tuples]);
      assert StableSort.Map(Screen.AsSample, [tuples]) == [Sample(eyeCoords)];
      Screen.ComputeScreenCoordsIn(fitted, [Sample(eyeCoords)])
  }

  /** With fewer than two eyes the model is never consulted: the result is the
      last cursor position, or the centre `(w // 2, h // 2)` of the resolution. */
  lemma FallbackHoldsStill(last: Option<Cursor>, resolution: (int, int), f1: Option<Screen.Fitted>, f2: Option<Screen.Fitted>,
                           eyeCoords: seq<Detect.Point>)
    requires |eyeCoords| < 2
    ensures SafeComputeCoordsIn(last, resolution, f1, eyeCoords) == SafeComputeCoordsIn(last, resolution, f2, eyeCoords)
    ensures last.Some? ==> SafeComputeCoordsIn(last, resolution, f1, eyeCoords) == Ok(Screen.Single(last.value))
    ensures last.None? && resolution.0 >= 0 && resolution.1 >= 0 ==>
      var c := SafeComputeCoordsIn(last, resolution, f1, eyeCoords).value.point;
      && 2.0 * c.0 <= resolution.0 as real < 2.0 * c.0 + 2.0
      && 2.0 * c.1 <= resolution.1 as real < 2.0 * c.1 + 2.0
  {
  }

  /** With two eyes the estimate is the model's answer for the one row
      `(x1, y1, x2, y2)`; with no model it raises `ValueError`. */
  lemma TwoEyesAskTheModel(last: Option<Cursor>, resolution: (int, int), fitted: Option<Screen.Fitted>,
                           eyeCoords: seq<Detect.Point>)
    requires |eyeCoords| == 2
    ensures var row := [Screen.PyInt(eyeCoords[0].0), Screen.PyInt(eyeCoords[0].1), Screen.PyInt(eyeCoords[1].0), Screen.PyInt(eyeCoords[1].1)];
      && (fitted.None? ==> SafeComputeCoordsIn(last, resolution, fitted, eyeCoords).Err? && SafeComputeCoordsIn(last, resolution, fitted, eyeCoords).error.ValueError?)
      && (fitted.Some? && fitted.value.Regression? ==> SafeComputeCoordsIn(last, resolution, fitted, eyeCoords) == Ok(Screen.Single(fitted.value.predict(row))))
      && (fitted.Some? && fitted.value.LinearND? ==> SafeComputeCoordsIn(last, resolution, fitted, eyeCoords) == Ok(Screen.PerRow([fitted.value.atX(row)], [fitted.value.atY(row)])))
  {
    var row := [Screen.PyInt(eyeCoords[0].0), Screen.PyInt(eyeCoords[0].1), Screen.PyInt(eyeCoords[1].0), Screen.PyInt(eyeCoords[1].1)];
    CapturedSamplesUnpack([eyeCoords]);
    assert StableSort.Map(SampleFor, [eyeCoords]) == [Sample(eyeCoords)];
    assert StableSort.Map(RowFor, [eyeCoords]) == [row];
    assert Screen.UnpackEyeCoordsOf([Sample(eyeCoords)]) == Ok([row]);
    if fitted.Some? && fitted.value.LinearND? {
      assert StableSort.Map(fitted.value.atX, [row]) == [fitted.value.atX(row)];
      assert StableSort.Map(fitted.value.atY, [row]) == [fitted.value.atY(row)];
    }
  }

  /** A record saved from samples captured since the last reset, with at
      least one circle location, loads into a regression model fitted on
      exactly the captured rows. */
  lemma SavedSamplesFit(detections: seq<seq<Detect.Point>>, locations: seq<(int, int)>, fitted: Option<Screen.Fitted>, fitters: Screen.Fitters)
    requires locations != []
    ensures var xy := Screen.UnpackScreenCoords(locations).value;
      Screen.CalibrationIn(fitted, StableSort.Map(SampleFor, detections), locations, Member(Screen.LinearRegression), fitters) ==
        (Some(Screen.Regression(fitters.fitRegression(StableSort.Map(RowFor, detections), xy.0, xy.1))), Pass)
  {
    CapturedSamplesUnpack(detections);
  }

  // ---------------------------------------------------------------------------
  // Objects

  /** The detector settings that `setBlobThreshold` and `setDetectionType`
      write; `EyeDetection` itself is not part of this model. */
  class EyeDetection {
    var blobThreshold: int
    var detectionType: Detect.DetectionType

    constructor (blobThreshold: int, detectionType: Detect.DetectionType)
      ensures this.blobThreshold == blobThreshold && this.detectionType == detectionType
    {
      this.blobThreshold := blobThreshold;
      this.detectionType := detectionType;
    }
  }

  /** `IrisSoftware.State`. */
  class State {
    var shouldExit: bool
    var isCalibrated: bool
    var calibrationEyeCoords: seq<Screen.PyValue>
    var lastCursorPos: Option<Cursor>

    constructor ()
      ensures !shouldExit && !isCalibrated && calibrationEyeCoords == [] && lastCursorPos == None
    {
      shouldExit := false;
      isCalibrated := false;
      calibrationEyeCoords := [];
      lastCursorPos := None;
    }
  }

  class IrisSoftware {
    const state: State
    const eyeDetector: EyeDetection
    const interpolator: Screen.Interpolator
    /** `camera.getResolution()`. */
    const resolution: (int, int)

    /** The first part of `__init__`: fresh state, detector and an
        uncalibrated interpolator. */
    constructor (resolution: (int, int), blobThreshold: int, detectionType: Detect.DetectionType)
      ensures fresh(state) && fresh(eyeDetector) && fresh(interpolator)
      ensures !state.shouldExit && !state.isCalibrated && state.calibrationEyeCoords == [] && state.lastCursorPos == None
      ensures eyeDetector.blobThreshold == blobThreshold && eyeDetector.detectionType == detectionType
      ensures interpolator.interpolator == None && this.resolution == resolution
    {
      state := new State();
      eyeDetector := new EyeDetection(blobThreshold, detectionType);
      interpolator := new Screen.Interpolator();
      this.resolution := resolution;
    }

    /** The rest of `__init__`: when the calibration file exists the program
        counts as calibrated and fits a regression on the saved record. */
    method LoadSavedCalibration(fileExists: bool, data: Screen.CalibrationData, fitters: Screen.Fitters)
      returns (outcome: Outcome)
      modifies state, interpolator
      ensures state.isCalibrated == (old(state.isCalibrated) || fileExists)
      ensures state.shouldExit == old(state.shouldExit) && state.calibrationEyeCoords == old(state.calibrationEyeCoords)
      ensures state.lastCursorPos == old(state.lastCursorPos)
      ensures !fileExists ==> interpolator.interpolator == old(interpolator.interpolator) && outcome == Pass
      ensures fileExists ==>
        (interpolator.interpolator, outcome) ==
          Screen.CalibrationIn(old(interpolator.interpolator), data.eyeCoords, data.calibrationCircleLocations,
                               Member(Screen.LinearRegression), fitters)
    {
      outcome := Pass;
      if fileExists {
        state.isCalibrated := true;
        outcome := interpolator.CalibrateInterpolator(true, data, Member(Screen.LinearRegression), fitters);
      }
    }

    /** `moveMouse`: returns where `pyautogui.moveTo` is sent and records it. */
    method MoveMouse(screenX: real, screenY: real) returns (movedTo: Cursor)
      modifies state
      ensures movedTo == Smooth(old(state.lastCursorPos), (screenX, screenY))
      ensures state.lastCursorPos == Some(movedTo)
      ensures state.shouldExit == old(state.shouldExit) && state.isCalibrated == old(state.isCalibrated)
      ensures state.calibrationEyeCoords == old(state.calibrationEyeCoords)
    {
      if state.lastCursorPos.None? {
        movedTo := (screenX, screenY);
      } else {
        var last := state.lastCursorPos.value;
        var x := last.0 + (screenX - last.0) * 0.1;
        var y := last.1 + (screenY - last.1) * 0.1;
        movedTo := (x, y);
      }
      state.lastCursorPos := Some(movedTo);
    }

    /** `safeComputeCoords`, passing the detection as one sample. */
    method SafeComputeCoords(eyeCoords: seq<Detect.Point>) returns (r: Result<Screen.Estimate>)
      ensures r == SafeComputeCoordsIn(state.lastCursorPos, resolution, interpolator.interpolator, eyeCoords)
    {
      if |eyeCoords| < 2 {
        if state.lastCursorPos.Some? {
          return Ok(Screen.Single(state.lastCursorPos.value));
        }
        return Ok(Screen.Single(((resolution.0 / 2) as real, (resolution.1 / 2) as real)));
      }
      r := interpolator.ComputeScreenCoords([Sample(eyeCoords)]);
    }

    method ChangeEyeColorThreshold(value: int)
      modifies eyeDetector
      ensures eyeDetector.blobThreshold == ScaledThreshold(value)
      ensures eyeDetector.detectionType == old(eyeDetector.detectionType)
    {
      eyeDetector.blobThreshold := 45 + 5 * (value - 1);
    }

    method ChangePupilModel(value: Tagged<PupilModelOption>)
      modifies eyeDetector
      ensures DetectionTypeFor(value).Some? ==> eyeDetector.detectionType == DetectionTypeFor(value).value
      ensures DetectionTypeFor(value).None? ==> eyeDetector.detectionType == old(eyeDetector.detectionType)
      ensures eyeDetector.blobThreshold == old(eyeDetector.blobThreshold)
    {
      if value == Member(Accuracy) {
        eyeDetector.detectionType := Detect.FaceEyeCascadeBlob;
      } else if value == Member(Speed) {
        eyeDetector.detectionType := Detect.EyeCascadeBlob;
      }
    }

    method ResetCalibrationEyeCoords()
      modifies state
      ensures state.calibrationEyeCoords == []
      ensures state.shouldExit == old(state.shouldExit) && state.isCalibrated == old(state.isCalibrated)
      ensures state.lastCursorPos == old(state.lastCursorPos)
    {
      state.calibrationEyeCoords := [];
    }

    /** `captureCalibrationEyeCoords`, given what `detectEyes` returned for
        the current frame: exactly one sample is appended. */
    method CaptureCalibrationEyeCoords(detected: seq<Detect.Point>)
      modifies state
      ensures state.calibrationEyeCoords == old(state.calibrationEyeCoords) + [SampleFor(detected)]
      ensures state.shouldExit == old(state.shouldExit) && state.isCalibrated == old(state.isCalibrated)
      ensures state.lastCursorPos == old(state.lastCursorPos)
    {
      var sample := Sample(detected);
      if |detected| < 2 {
        sample := Sentinel;
      }
      state.calibrationEyeCoords := state.calibrationEyeCoords + [sample];
    }

    /** The record-building and reset steps of `saveCalibrationData`, given
        the calibration window's circle locations; returns the record that is
        pickled. */
    method SaveCalibrationData(calibrationCircleLocations: seq<(int, int)>) returns (data: Screen.CalibrationData)
      modifies state
      ensures data == Screen.CalibrationData(old(state.calibrationEyeCoords), calibrationCircleLocations)
      ensures state.calibrationEyeCoords == []
      ensures state.shouldExit == old(state.shouldExit) && state.isCalibrated == old(state.isCalibrated)
      ensures state.lastCursorPos == old(state.lastCursorPos)
    {
      data := Screen.CalibrationData(state.calibrationEyeCoords, calibrationCircleLocations);
      ResetCalibrationEyeCoords();
    }
  }
}
