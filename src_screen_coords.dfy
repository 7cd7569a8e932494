/** The earlier screen-coordinate module (`src/computeScreenCoords.py`). Its
    reshaping functions are those of the IrisSoftware module; its
    `Interpolator` knows only `LINEAR`, and its constructor is misspelt
    `__init`, so Python never runs it and a new object has no `interpolator`
    attribute until it is calibrated. */
module SrcScreenCoords {
  import opened Common
  import StableSort
  import Iris = IrisScreenCoords

  datatype SrcInterpolationType = Linear | RbfLinear

  /** The object's `interpolator` attribute: missing, or a `LinearInterpolator`
      with one fitted function per screen axis. */
  datatype Attribute = Missing | Present(atX: Iris.Row -> real, atY: Iris.Row -> real)

  /** `computeScreenCoords` of the object: the samples are unpacked first;
      reading the missing attribute then raises `AttributeError`, so the
      `ValueError` branch of the source can never be taken (no code path
      stores `None`). */
  function ComputeScreenCoordsIn(attribute: Attribute, eyeCoords: seq<Iris.PyValue>): (r: Result<Iris.Estimate>)
    ensures Iris.UnpackEyeCoordsOf(eyeCoords).Err? ==> r == Err(Iris.UnpackEyeCoordsOf(eyeCoords).error)
    ensures Iris.UnpackEyeCoordsOf(eyeCoords).Ok? && attribute.Missing? ==> r == Err(AttributeError)
    ensures Iris.UnpackEyeCoordsOf(eyeCoords).Ok? && attribute.Present? ==> r == Iris.Evaluate(Iris.LinearND(attribute.atX, attribute.atY), Iris.UnpackEyeCoordsOf(eyeCoords).value)
    ensures r.Err? ==> !r.error.ValueError?
  {
    match Iris.UnpackEyeCoordsOf(eyeCoords)
    case Err(e) => Err(e)
    case Ok(rows) =>
      match attribute
      case Missing => Err(AttributeError)
      case Present(atX, atY) => Iris.Evaluate(Iris.LinearND(atX, atY), rows)
  }

  /** `calibrateInterpolator`: only `LINEAR` does anything. */
  function CalibrationIn(attribute: Attribute, eyeCoords: seq<Iris.PyValue>, screenCoords: seq<(int, int)>,
                         interpType: Tagged<SrcInterpolationType>,
                         fitLinearND: (seq<Iris.Row>, seq<int>, seq<int>) -> (Iris.Row -> real, Iris.Row -> real)): (r: (Attribute, Outcome))
    ensures r.1.Fail? <==> interpType == Member(Linear) && (Iris.UnpackEyeCoordsOf(eyeCoords).Err? || screenCoords == [])
    ensures r.1.Fail? ==> r.0 == attribute && (r.1.error == TypeError || r.1.error.ValueError?)
    ensures r.1.Pass? && interpType == Member(Linear) ==> r.0.Present?
    ensures interpType != Member(Linear) ==> r == (attribute, Pass)
  {
    if interpType == Member(Linear) then
      match Iris.UnpackEyeCoordsOf(eyeCoords)
      case Err(e) => (attribute, Fail(e))
      case Ok(rows) =>
        match Iris.UnpackScreenCoords(screenCoords)
        case Err(e) => (attribute, Fail(e))
        case Ok(xy) =>
          var (atX, atY) := fitLinearND(rows, xy.0, xy.1);
          (Present(atX, atY), Pass)
    else (attribute, Pass)
  }

  /** Only `LINEAR` changes the object; once calibrated it holds a
      piecewise-linear model fitted on the unpacked data. */
  lemma CalibrationOnlyForLinear(attribute: Attribute, samples: seq<seq<seq<Iris.PyValue>>>, screenCoords: seq<(int, int)>,
                                 interpType: Tagged<SrcInterpolationType>,
                                 fitLinearND: (seq<Iris.Row>, seq<int>, seq<int>) -> (Iris.Row -> real, Iris.Row -> real))
    ensures interpType != Member(Linear) ==>
      CalibrationIn(attribute, StableSort.Map(Iris.AsSample, samples), screenCoords, interpType, fitLinearND) == (attribute, Pass)
    ensures interpType == Member(Linear) && screenCoords != [] ==>
      var xy := Iris.UnpackScreenCoords(screenCoords).value;
      var (atX, atY) := fitLinearND(Iris.UnpackEyeCoords(samples), xy.0, xy.1);
      CalibrationIn(attribute, StableSort.Map(Iris.AsSample, samples), screenCoords, interpType, fitLinearND) == (Present(atX, atY), Pass)
  {
    Iris.UnpackOfSamples(samples);
  }

  /** Before calibration every well-formed call fails at the attribute read;
      after it, the call hands the flattened rows to the stored model. */
  lemma ComputeBeforeAndAfterCalibration(samples: seq<seq<seq<Iris.PyValue>>>, atX: Iris.Row -> real, atY: Iris.Row -> real)
    ensures ComputeScreenCoordsIn(Missing, StableSort.Map(Iris.AsSample, samples)) == Err(AttributeError)
    ensures ComputeScreenCoordsIn(Present(atX, atY), StableSort.Map(Iris.AsSample, samples)) ==
      Ok(Iris.PerRow(StableSort.Map(atX, Iris.UnpackEyeCoords(samples)), StableSort.Map(atY, Iris.UnpackEyeCoords(samples))))
  {
    Iris.UnpackOfSamples(samples);
  }

  class Interpolator {
    var interpolator: Attribute

    /** Object creation: `__init` is an ordinary method, so nothing is set. */
    constructor ()
      ensures interpolator == Missing
    {
      interpolator := Missing;
    }

    method CalibrateInterpolator(eyeCoords: seq<Iris.PyValue>, screenCoords: seq<(int, int)>,
                                 interpType: Tagged<SrcInterpolationType>,
                                 fitLinearND: (seq<Iris.Row>, seq<int>, seq<int>) -> (Iris.Row -> real, Iris.Row -> real))
      returns (outcome: Outcome)
      modifies this
      ensures (interpolator, outcome) == CalibrationIn(old(interpolator), eyeCoords, screenCoords, interpType, fitLinearND)
    {
      if interpType == Member(Linear) {
        var rows := Iris.UnpackEyeCoordsOf(eyeCoords);
        if rows.Err? { return Fail(rows.error); }
        var xy := Iris.UnpackScreenCoords(screenCoords);
        if xy.Err? { return Fail(xy.error); }
        var (atX, atY) := fitLinearND(rows.value, xy.value.0, xy.value.1);
        interpolator := Present(atX, atY);
      }
      return Pass;
    }

    method ComputeScreenCoords(eyeCoords: seq<Iris.PyValue>) returns (r: Result<Iris.Estimate>)
      ensures r == ComputeScreenCoordsIn(interpolator, eyeCoords)
    {
      var rows := Iris.UnpackEyeCoordsOf(eyeCoords);
      if rows.Err? { return Err(rows.error); }
      if interpolator.Missing? { return Err(AttributeError); }
      r := Iris.Evaluate(Iris.LinearND(interpolator.atX, interpolator.atY), rows.value);
    }
  }

  /** The module-level `computeScreenCoords` is a stub: it returns `None`
      whatever it is given. */
  function ComputeScreenCoordsStub(eyeCoords: seq<Iris.PyValue>): (r: Option<Iris.Estimate>)
    ensures r == None
  {
    None
  }
}
