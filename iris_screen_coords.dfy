/** Screen-coordinate estimation of the IrisSoftware pipeline
    (`IrisSoftware/computeScreenCoords.py`): reshaping of calibration samples
    and the interpolator object that is fitted on them. The fitting itself
    (scipy's `LinearNDInterpolator`, sklearn's `LinearRegression`) is foreign;
    a fitted model is an opaque function value from a row to a screen position. */
module IrisScreenCoords {
  import opened Common
  import StableSort

  /** The Python values that make up calibration samples: numbers, `None`
      (the sentinel of a missed detection), tuples and lists. */
  datatype PyValue =
    | PyInt(i: int)
    | PyNone
    | PyTuple(items: seq<PyValue>)
    | PyList(elements: seq<PyValue>)

  /** A flattened sample: the items of one 4-tuple `(x1, y1, x2, y2)`. */
  type Row = seq<PyValue>

  // ---------------------------------------------------------------------------
  // Reshaping, on typed values

  /** The concatenation of a sequence of tuples, as `sum(tuples, ())` builds it. */
  function Concat<T>(tuples: seq<seq<T>>): (r: seq<T>)
  {
    if tuples == [] then [] else tuples[0] + Concat(tuples[1..])
  }

  /** `unpackEyeCoords` on a list of samples, each a list of tuples. */
  function UnpackEyeCoords<T>(eyeCoords: seq<seq<seq<T>>>): (r: seq<seq<T>>)
    ensures |r| == |eyeCoords|
  {
    StableSort.Map(Concat, eyeCoords)
  }

  /** Splits a flat row into consecutive pairs: the inverse of `Concat` on
      samples made of points. */
  function Pairs<T>(row: seq<T>): seq<seq<T>>
    requires |row| % 2 == 0
  {
    if row == [] then [] else [row[..2]] + Pairs(row[2..])
  }

  predicate AllPairs<T>(tuples: seq<seq<T>>) {
    forall i :: 0 <= i < |tuples| ==> |tuples[i]| == 2
  }

  lemma {:induction false} ConcatLength<T>(tuples: seq<seq<T>>)
    requires AllPairs(tuples)
    ensures |Concat(tuples)| == 2 * |tuples|
  {
    if tuples != [] {
      ConcatLength(tuples[1..]);
    }
  }

  /** A sample of points flattens without losing anything: `Pairs` recovers it. */
  lemma {:induction false} PairsOfConcat<T>(tuples: seq<seq<T>>)
    requires AllPairs(tuples)
    ensures |Concat(tuples)| % 2 == 0 && Pairs(Concat(tuples)) == tuples
  {
    ConcatLength(tuples);
    if tuples != [] {
      var c := Concat(tuples);
      assert c == tuples[0] + Concat(tuples[1..]);
      assert c[..2] == tuples[0] && c[2..] == Concat(tuples[1..]);
      PairsOfConcat(tuples[1..]);
      assert tuples == [tuples[0]] + tuples[1..];
    }
  }

  /** A two-eye sample `[(a, b), (c, d)]` flattens to `(a, b, c, d)`; every
      output row is the flattening of the sample at the same position. */
  lemma UnpackEyeCoordsFlattens<T>(eyeCoords: seq<seq<seq<T>>>, i: nat, a: T, b: T, c: T, d: T)
    requires i < |eyeCoords| && eyeCoords[i] == [[a, b], [c, d]]
    ensures UnpackEyeCoords(eyeCoords)[i] == [a, b, c, d]
  {
    assert eyeCoords[i][1..] == [[c, d]];
    assert eyeCoords[i][1..][1..] == [];
  }

  /** Unpacking is undone by regrouping each row into pairs. */
  lemma UnpackEyeCoordsRoundTrip<T>(eyeCoords: seq<seq<seq<T>>>, i: nat)
    requires i < |eyeCoords| && AllPairs(eyeCoords[i])
    ensures |UnpackEyeCoords(eyeCoords)[i]| == 2 * |eyeCoords[i]|
    ensures Pairs(UnpackEyeCoords(eyeCoords)[i]) == eyeCoords[i]
  {
    ConcatLength(eyeCoords[i]);
    PairsOfConcat(eyeCoords[i]);
  }

  /** `zip(xs, ys)`, the inverse of `unpackScreenCoords`. */
  function Zip<T>(xs: seq<T>, ys: seq<T>): (r: seq<(T, T)>)
    requires |xs| == |ys|
    ensures |r| == |xs|
  {
    seq(|xs|, i requires 0 <= i < |xs| => (xs[i], ys[i]))
  }

  /** `unpackScreenCoords`: the x list and the y list of a list of points.
      `zip(*[])` produces nothing, so unpacking it into two names raises
      `ValueError`. */
  function UnpackScreenCoords<T>(screenCoords: seq<(T, T)>): (r: Result<(seq<T>, seq<T>)>)
    ensures r.Err? <==> screenCoords == []
    ensures r.Err? ==> r.error.ValueError?
    ensures r.Ok? ==> |r.value.0| == |r.value.1| == |screenCoords|
  {
    if screenCoords == [] then Err(ValueError("not enough values to unpack"))
    else Ok((seq(|screenCoords|, i requires 0 <= i < |screenCoords| => screenCoords[i].0),
             seq(|screenCoords|, i requires 0 <= i < |screenCoords| => screenCoords[i].1)))
  }

  /** Zipping the two lists gives back the points, and any two lists that
      zip to the points are the unpacked ones. */
  lemma UnpackScreenCoordsRoundTrip<T>(screenCoords: seq<(T, T)>, xs: seq<T>, ys: seq<T>)
    requires screenCoords != []
    ensures var r := UnpackScreenCoords(screenCoords).value; Zip(r.0, r.1) == screenCoords
    ensures |xs| == |ys| && Zip(xs, ys) == screenCoords ==> UnpackScreenCoords(screenCoords) == Ok((xs, ys))
  {
    if |xs| == |ys| && Zip(xs, ys) == screenCoords {
      var r := UnpackScreenCoords(screenCoords).value;
      assert forall i :: 0 <= i < |xs| ==> xs[i] == Zip(xs, ys)[i].0 && ys[i] == Zip(xs, ys)[i].1;
      assert r.0 == xs && r.1 == ys;
    }
  }

  // ---------------------------------------------------------------------------
  // Reshaping, on Python values

  /** `sum(items, start)` on a sequence of values: repeated tuple
      concatenation, which raises `TypeError` at the first item that is not
      a tuple. */
  function SumTuples(items: seq<PyValue>, start: seq<PyValue>): (r: Result<seq<PyValue>>)
    ensures r.Err? ==> r.error == TypeError
    ensures r.Ok? ==> start <= r.value
    decreases |items|
  {
    if items == [] then Ok(start)
    else match items[0]
      case PyTuple(t) => SumTuples(items[1..], start + t)
      case _ => Err(TypeError)
  }

  /** The items a `for` loop visits in a list or a tuple; iterating anything
      else raises `TypeError`. */
  function Iterate(v: PyValue): (r: Result<seq<PyValue>>)
    ensures r.Ok? <==> v.PyTuple? || v.PyList?
    ensures r.Err? ==> r.error == TypeError
  {
    match v
    case PyTuple(t) => Ok(t)
    case PyList(l) => Ok(l)
    case _ => Err(TypeError)
  }

  /** `unpackEyeCoords` on the list it is given: each element is iterated
      and its items are summed onto `()`; the first failure propagates. */
  function UnpackEyeCoordsOf(eyeCoords: seq<PyValue>): (r: Result<seq<Row>>)
    ensures r.Ok? ==> |r.value| == |eyeCoords|
    ensures r.Err? ==> r.error == TypeError
    decreases |eyeCoords|
  {
    if eyeCoords == [] then Ok([])
    else
      match Iterate(eyeCoords[0])
      case Err(e) => Err(e)
      case Ok(items) =>
        match SumTuples(items, [])
        case Err(e) => Err(e)
        case Ok(row) =>
          match UnpackEyeCoordsOf(eyeCoords[1..])
          case Err(e) => Err(e)
          case Ok(rows) => Ok([row] + rows)
  }

  /** A sample as Python holds it: a list of tuples. */
  function AsSample(tuples: seq<seq<PyValue>>): PyValue {
    PyList(StableSort.Map(AsTuple, tuples))
  }

  function AsTuple(items: seq<PyValue>): PyValue { PyTuple(items) }

  lemma {:induction false} SumOfTuplesIsConcat(tuples: seq<seq<PyValue>>, start: seq<PyValue>)
    ensures SumTuples(StableSort.Map(AsTuple, tuples), start) == Ok(start + Concat(tuples))
  {
    var items := StableSort.Map(AsTuple, tuples);
    if tuples == [] {
      assert start + Concat(tuples) == start;
    } else {
      assert items[1..] == StableSort.Map(AsTuple, tuples[1..]);
      SumOfTuplesIsConcat(tuples[1..], start + tuples[0]);
      assert start + tuples[0] + Concat(tuples[1..]) == start + Concat(tuples);
    }
  }

  /** On well-formed samples, lists of tuples, the dynamic `unpackEyeCoords`
      succeeds and agrees with the typed one. */
  lemma {:induction false} UnpackOfSamples(samples: seq<seq<seq<PyValue>>>)
    ensures UnpackEyeCoordsOf(StableSort.Map(AsSample, samples)) == Ok(UnpackEyeCoords(samples))
  {
    var v := StableSort.Map(AsSample, samples);
    if samples != [] {
      SumOfTuplesIsConcat(samples[0], []);
      assert [] + Concat(samples[0]) == Concat(samples[0]);
      assert v[1..] == StableSort.Map(AsSample, samples[1..]);
      UnpackOfSamples(samples[1..]);
      assert UnpackEyeCoords(samples) == [Concat(samples[0])] + UnpackEyeCoords(samples[1..]);
    }
  }

  /** A sample whose first item is a number and not a tuple, such as one
      point `(x, y)` passed where a list of points is expected, raises
      `TypeError`: `() + x` is not defined. */
  lemma UnpackRejectsBarePoint(eyeCoords: seq<PyValue>, x: int, rest: seq<PyValue>)
    requires |eyeCoords| > 0 && eyeCoords[0] == PyTuple([PyInt(x)] + rest)
    ensures UnpackEyeCoordsOf(eyeCoords) == Err(TypeError)
  {
  }

  // ---------------------------------------------------------------------------
  // Fitted models and the interpolator

  datatype InterpolationType = Linear | RbfLinear | LinearRegression

  /** A screen position as the fitted models produce it, in floating point. */
  type ScreenPoint = (real, real)

  /** A fitted model: piecewise-linear interpolation of each screen axis
      (`LinearInterpolator`) or a linear regression (`LinearRegressionInterpolator`). */
  datatype Fitted =
    | LinearND(atX: Row -> real, atY: Row -> real)
    | Regression(predict: Row -> ScreenPoint)

  /** The foreign fitting procedures, from flattened samples and the two
      screen-coordinate lists to a fitted model. */
  datatype Fitters = Fitters(
    fitLinearND: (seq<Row>, seq<int>, seq<int>) -> (Row -> real, Row -> real),
    fitRegression: (seq<Row>, seq<int>, seq<int>) -> (Row -> ScreenPoint))

  /** What a fitted model's `computeScreenCoords` returns: one array per axis
      with a value per row, or a single predicted point. */
  datatype Estimate = PerRow(xs: seq<real>, ys: seq<real>) | Single(point: ScreenPoint)

  /** `computeScreenCoords` of a fitted model. The regression returns the
      prediction for the last row only (`tolist()[-1]`); with no row there is
      nothing to predict and sklearn raises `ValueError`. */
  function Evaluate(f: Fitted, rows: seq<Row>): (r: Result<Estimate>)
    ensures f.LinearND? ==> r.Ok? && r.value.PerRow? && |r.value.xs| == |r.value.ys| == |rows|
    ensures f.LinearND? ==> forall i :: 0 <= i < |rows| ==> r.value.xs[i] == f.atX(rows[i]) && r.value.ys[i] == f.atY(rows[i])
    ensures f.Regression? ==> (r.Err? <==> rows == [])
    ensures f.Regression? && rows != [] ==> r == Ok(Single(f.predict(rows[|rows| - 1])))
  {
    match f
    case LinearND(atX, atY) => Ok(PerRow(StableSort.Map(atX, rows), StableSort.Map(atY, rows)))
    case Regression(predict) =>
      if rows == [] then Err(ValueError("Found array with 0 samples")) else Ok(Single(predict(rows[|rows| - 1])))
  }

  /** The regression's estimate depends on the last row alone: two inputs
      ending in the same row give the same answer. */
  lemma RegressionUsesOnlyLastRow(predict: Row -> ScreenPoint, rows1: seq<Row>, rows2: seq<Row>)
    requires rows1 != [] && rows2 != [] && rows1[|rows1| - 1] == rows2[|rows2| - 1]
    ensures Evaluate(Regression(predict), rows1) == Evaluate(Regression(predict), rows2)
  {
  }

  /** `Interpolator.computeScreenCoords` in state `fitted`: the samples are
      unpacked first, so a malformed argument raises `TypeError` whatever the
      state; only then does a missing model raise `ValueError`. */
  function ComputeScreenCoordsIn(fitted: Option<Fitted>, eyeCoords: seq<PyValue>): (r: Result<Estimate>)
    ensures UnpackEyeCoordsOf(eyeCoords).Err? ==> r == Err(UnpackEyeCoordsOf(eyeCoords).error)
    ensures UnpackEyeCoordsOf(eyeCoords).Ok? && fitted.None? ==> r.Err? && r.error.ValueError?
    ensures UnpackEyeCoordsOf(eyeCoords).Ok? && fitted.Some? ==> r == Evaluate(fitted.value, UnpackEyeCoordsOf(eyeCoords).value)
  {
    match UnpackEyeCoordsOf(eyeCoords)
    case Err(e) => Err(e)
    case Ok(rows) =>
      match fitted
      case None => Err(ValueError("Error when calibrating interpolator"))
      case Some(f) => Evaluate(f, rows)
  }

  /** The state change and outcome of `calibrateInterpolatorManual`: `LINEAR`
      and `LINEAR_REGRESSION` unpack both inputs and replace the model; any
      other type returns without doing anything. */
  function CalibrationIn(fitted: Option<Fitted>, eyeCoords: seq<PyValue>, screenCoords: seq<(int, int)>,
                         interpType: Tagged<InterpolationType>, fitters: Fitters): (r: (Option<Fitted>, Outcome))
    ensures var fits := interpType == Member(Linear) || interpType == Member(LinearRegression);
      r.1.Fail? <==> fits && (UnpackEyeCoordsOf(eyeCoords).Err? || screenCoords == [])
    ensures r.1.Fail? ==> r.0 == fitted && (r.1.error == TypeError || r.1.error.ValueError?)
    ensures r.1.Pass? && interpType == Member(Linear) ==> r.0.Some? && r.0.value.LinearND?
    ensures r.1.Pass? && interpType == Member(LinearRegression) ==> r.0.Some? && r.0.value.Regression?
    ensures interpType != Member(Linear) && interpType != Member(LinearRegression) ==> r == (fitted, Pass)
  {
    if interpType == Member(Linear) || interpType == Member(LinearRegression) then
      match UnpackEyeCoordsOf(eyeCoords)
      case Err(e) => (fitted, Fail(e))
      case Ok(rows) =>
        match UnpackScreenCoords(screenCoords)
        case Err(e) => (fitted, Fail(e))
        case Ok(xy) =>
          if interpType == Member(Linear) then
            var (atX, atY) := fitters.fitLinearND(rows, xy.0, xy.1);
            (Some(LinearND(atX, atY)), Pass)
          else
            (Some(Regression(fitters.fitRegression(rows, xy.0, xy.1))), Pass)
    else (fitted, Pass)
  }

  /** `RBF_LINEAR`, and any value that is not an `InterpolationType`, leave
      the model as it was. */
  lemma CalibrationIgnoresOtherTypes(fitted: Option<Fitted>, eyeCoords: seq<PyValue>, screenCoords: seq<(int, int)>,
                                     interpType: Tagged<InterpolationType>, fitters: Fitters)
    requires interpType != Member(Linear) && interpType != Member(LinearRegression)
    ensures CalibrationIn(fitted, eyeCoords, screenCoords, interpType, fitters) == (fitted, Pass)
  {
  }

  /** `LINEAR` and `LINEAR_REGRESSION` on well-formed samples and at least one
      screen point install a model of that kind fitted on the unpacked data,
      and a later estimate no longer raises for want of a model. */
  lemma CalibrationFits(fitted: Option<Fitted>, samples: seq<seq<seq<PyValue>>>, screenCoords: seq<(int, int)>,
                        t: InterpolationType, fitters: Fitters, query: seq<seq<seq<PyValue>>>)
    requires t != RbfLinear && screenCoords != []
    ensures var (after, outcome) := CalibrationIn(fitted, StableSort.Map(AsSample, samples), screenCoords, Member(t), fitters);
      var xy := UnpackScreenCoords(screenCoords).value;
      && outcome == Pass
      && (t == Linear ==> after == Some(LinearND(fitters.fitLinearND(UnpackEyeCoords(samples), xy.0, xy.1).0,
                                                 fitters.fitLinearND(UnpackEyeCoords(samples), xy.0, xy.1).1)))
      && (t == LinearRegression ==> after == Some(Regression(fitters.fitRegression(UnpackEyeCoords(samples), xy.0, xy.1))))
      && (query != [] ==> ComputeScreenCoordsIn(after, StableSort.Map(AsSample, query)).Ok?)
  {
    UnpackOfSamples(samples);
    UnpackOfSamples(query);
  }

  /** Calibrating without any screen point fails with `ValueError` and keeps the model. */
  lemma CalibrationWithoutScreenPoints(fitted: Option<Fitted>, samples: seq<seq<seq<PyValue>>>,
                                       t: InterpolationType, fitters: Fitters)
    requires t != RbfLinear
    ensures var (after, outcome) := CalibrationIn(fitted, StableSort.Map(AsSample, samples), [], Member(t), fitters);
      after == fitted && outcome.Fail? && outcome.error.ValueError?
  {
    UnpackOfSamples(samples);
  }

  /** The calibration record `saveCalibrationData` pickles. */
  datatype CalibrationData = CalibrationData(eyeCoords: seq<PyValue>, calibrationCircleLocations: seq<(int, int)>)

  /** `Interpolator`: holds the fitted model, or `None` until calibrated. */
  class Interpolator {
    var interpolator: Option<Fitted>

    constructor ()
      ensures interpolator == None
    {
      interpolator := None;
    }

    /** `calibrateInterpolatorManual`, whose type defaults to `LINEAR_REGRESSION`. */
    method CalibrateInterpolatorManual(eyeCoords: seq<PyValue>, screenCoords: seq<(int, int)>,
                                       interpType: Tagged<InterpolationType>, fitters: Fitters)
      returns (outcome: Outcome)
      modifies this
      ensures (interpolator, outcome) == CalibrationIn(old(interpolator), eyeCoords, screenCoords, interpType, fitters)
    {
      if interpType == Member(Linear) {
        var rows := UnpackEyeCoordsOf(eyeCoords);
        if rows.Err? { return Fail(rows.error); }
        var xy := UnpackScreenCoords(screenCoords);
        if xy.Err? { return Fail(xy.error); }
        var (atX, atY) := fitters.fitLinearND(rows.value, xy.value.0, xy.value.1);
        interpolator := Some(LinearND(atX, atY));
      } else if interpType == Member(LinearRegression) {
        var rows := UnpackEyeCoordsOf(eyeCoords);
        if rows.Err? { return Fail(rows.error); }
        var xy := UnpackScreenCoords(screenCoords);
        if xy.Err? { return Fail(xy.error); }
        interpolator := Some(Regression(fitters.fitRegression(rows.value, xy.value.0, xy.value.1)));
      }
      return Pass;
    }

    /** `calibrateInterpolator`: with no calibration file it raises
        `ValueError` before touching the model; otherwise it calibrates on
        the loaded record. */
    method CalibrateInterpolator(fileExists: bool, data: CalibrationData,
                                 interpType: Tagged<InterpolationType>, fitters: Fitters)
      returns (outcome: Outcome)
      modifies this
      ensures !fileExists ==> interpolator == old(interpolator) && outcome.Fail? && outcome.error.ValueError?
      ensures fileExists ==>
        (interpolator, outcome) == CalibrationIn(old(interpolator), data.eyeCoords, data.calibrationCircleLocations, interpType, fitters)
    {
      if !fileExists {
        return Fail(ValueError("Error when calibrating interpolator"));
      }
      outcome := CalibrateInterpolatorManual(data.eyeCoords, data.calibrationCircleLocations, interpType, fitters);
    }

    /** `computeScreenCoords`: changes nothing and returns the estimate of the
        current model. */
    method ComputeScreenCoords(eyeCoords: seq<PyValue>) returns (r: Result<Estimate>)
      ensures r == ComputeScreenCoordsIn(interpolator, eyeCoords)
    {
      var rows := UnpackEyeCoordsOf(eyeCoords);
      if rows.Err? { return Err(rows.error); }
      if interpolator.None? { return Err(ValueError("Error when calibrating interpolator")); }
      r := Evaluate(interpolator.value, rows.value);
    }
  }

  /** A fresh interpolator raises `ValueError` on any well-formed argument. */
  lemma UncalibratedRaises(samples: seq<seq<seq<PyValue>>>)
    ensures ComputeScreenCoordsIn(None, StableSort.Map(AsSample, samples)).Err?
    ensures ComputeScreenCoordsIn(None, StableSort.Map(AsSample, samples)).error.ValueError?
  {
    UnpackOfSamples(samples);
  }
}
