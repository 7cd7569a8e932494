/** Eye-detection post-processing of the IrisSoftware pipeline. The OpenCV
    calls (grey conversion, Haar cascades, thresholding, blob detection) are
    foreign; their answers for one frame arrive as a `Detections` record, and
    this module models what the pipeline makes of them: box centres, blob
    fallbacks, the largest face, face offsets and the top-two filter. */
module IrisDetectEyes {
  import opened Common
  import StableSort

  /** A cascade hit `(x, y, w, h)`: top-left corner, width and height. */
  datatype Box = Box(x: int, y: int, w: int, h: int)

  /** An image point in whole pixels. */
  type Point = (int, int)

  /** A blob detector keypoint; `pt` holds floating-point coordinates within
      the crop it was found in. */
  datatype KeyPoint = KeyPoint(ptX: real, ptY: real)

  datatype DetectionType = EyeCascade | EyeCascadeBlob | FaceEyeCascade | FaceEyeCascadeBlob

  /** The detector `detectEyes` uses when its caller names none. */
  const DefaultDetectorType: DetectionType := EyeCascade

  /** What the foreign detectors report for one frame. */
  datatype Detections = Detections(
    eyes: seq<Box>,               // eye cascade on the whole grey frame
    faces: seq<Box>,              // face cascade on the whole grey frame
    eyesInFace: Box -> seq<Box>,  // eye cascade on the crop of a face, in crop coordinates
    blobs: Box -> seq<KeyPoint>)  // blob detector on the thresholded crop named by a box

  /** `tupleAdd`: adds `(a, b)` to the point `(px, py)` and rounds each sum
      with Python's `round`. */
  function TupleAdd(px: real, py: real, a: real, b: real): (r: Point)
    ensures -0.5 <= px + a - r.0 as real <= 0.5 && -0.5 <= py + b - r.1 as real <= 0.5
    ensures (px + a - r.0 as real == 0.5 || r.0 as real - (px + a) == 0.5) ==> r.0 % 2 == 0
    ensures (py + b - r.1 as real == 0.5 || r.1 as real - (py + b) == 0.5) ==> r.1 % 2 == 0
  {
    (Round(px + a), Round(py + b))
  }

  /** The rounded centre `tupleAdd((x, y), w/2, h/2)` of a box: within half
      a pixel of the exact centre on each axis, an exact half going to the
      even pixel. */
  function Centre(b: Box): (c: Point)
    ensures -1 <= 2 * (b.x - c.0) + b.w <= 1 && -1 <= 2 * (b.y - c.1) + b.h <= 1
    ensures b.w % 2 == 1 ==> c.0 % 2 == 0
    ensures b.h % 2 == 1 ==> c.1 % 2 == 0
  {
    var c := TupleAdd(b.x as real, b.y as real, b.w as real / 2.0, b.h as real / 2.0);
    HalfPixel(b.x, b.w, c.0);
    HalfPixel(b.y, b.h, c.1);
    c
  }

  /** One axis of `Centre`: Python's `round` of `x + w/2`. */
  lemma HalfPixel(x: int, w: int, c: int)
    requires -0.5 <= x as real + w as real / 2.0 - c as real <= 0.5
    requires (x as real + w as real / 2.0 - c as real == 0.5 || c as real - (x as real + w as real / 2.0) == 0.5) ==> c % 2 == 0
    ensures -1 <= 2 * (x - c) + w <= 1
    ensures w % 2 == 1 ==> c % 2 == 0
  {
    var m := 2 * (x - c) + w;
    assert m as real == 2.0 * (x as real + w as real / 2.0 - c as real);
    if w % 2 == 1 {
      assert m % 2 == 1;
      assert m == 1 || m == -1;
    }
  }

  /** The centre of a box with non-negative size lies inside it. */
  lemma CentreIsInsideBox(b: Box)
    requires b.w >= 0 && b.h >= 0
    ensures b.x <= Centre(b).0 <= b.x + b.w && b.y <= Centre(b).1 <= b.y + b.h
  {
    var c := Centre(b);
    assert (b.x - 1) as real < c.0 as real && c.0 as real < (b.x + b.w + 1) as real;
    assert (b.y - 1) as real < c.1 as real && c.1 as real < (b.y + b.h + 1) as real;
  }

  /** The `centerCoordinates` decorator: each box becomes its centre. */
  function CenterCoordinates(eyes: seq<Box>): (r: seq<Point>)
    ensures |r| == |eyes|
    ensures forall i :: 0 <= i < |eyes| ==> r[i] == Centre(eyes[i])
  {
    StableSort.Map(Centre, eyes)
  }

  function PointY(p: Point): int { p.1 }

  /** The `filterFalsePositives` decorator: the first two points of a stable
      sort by vertical coordinate. */
  function FilterFalsePositives(points: seq<Point>): (r: seq<Point>)
    ensures |r| == Min(2, |points|)
    ensures multiset(r) <= multiset(points)
  {
    var sorted := StableSort.Sort(points, PointY);
    StableSort.PrefixSplit(sorted, Min(2, |points|));
    sorted[..Min(2, |points|)]
  }

  /** `filterFalsePositives` keeps `min(2, n)` points, in ascending `y`,
      taken from the input, and each kept point is at least as high as every
      point it drops. */
  lemma FilterKeepsTopmost(points: seq<Point>)
    ensures |FilterFalsePositives(points)| == Min(2, |points|) <= 2
    ensures StableSort.SortedBy(FilterFalsePositives(points), PointY)
    ensures multiset(FilterFalsePositives(points)) <= multiset(points)
    ensures forall p, q :: p in FilterFalsePositives(points) && q in multiset(points) - multiset(FilterFalsePositives(points)) ==> p.1 <= q.1
  {
    var kept := FilterFalsePositives(points);
    StableSort.SortPrefixKeepsSmallest(points, PointY, Min(2, |points|));
    forall p, q | p in kept && q in multiset(points) - multiset(kept) ensures p.1 <= q.1 {
      assert PointY(p) <= PointY(q);
    }
  }

  /** `filterFalsePositives` is stable: points at the same height keep their
      input order, so ties are broken in favour of earlier detections. The
      kept points at height `k` are the first ones of that height in the
      input, in input order. */
  lemma FilterIsStable(points: seq<Point>, k: int)
    ensures StableSort.WithKey(FilterFalsePositives(points), PointY, k) <= StableSort.WithKey(points, PointY, k)
    ensures StableSort.WithKey(StableSort.Sort(points, PointY), PointY, k) == StableSort.WithKey(points, PointY, k)
  {
    var sorted := StableSort.Sort(points, PointY);
    var n := Min(2, |points|);
    assert sorted == sorted[..n] + sorted[n..];
    StableSort.WithKeyConcat(sorted[..n], sorted[n..], PointY, k);
    StableSort.SortKeepsRun(points, PointY, k);
  }

  /** `getPupils`: one point per (keypoints, box) pair; the first keypoint
      moved by the box origin, or the box centre when no blob was found. */
  function GetPupils(pupils: seq<seq<KeyPoint>>, eyes: seq<Box>): (r: seq<Point>)
    ensures |r| == Min(|pupils|, |eyes|)
    ensures forall i :: 0 <= i < |r| && pupils[i] == [] ==> r[i] == Centre(eyes[i])
    ensures forall i :: 0 <= i < |r| && pupils[i] != [] ==>
      -0.5 <= pupils[i][0].ptX + eyes[i].x as real - r[i].0 as real <= 0.5 &&
      -0.5 <= pupils[i][0].ptY + eyes[i].y as real - r[i].1 as real <= 0.5
    ensures forall i :: 0 <= i < |r| && pupils[i] != [] ==>
      var sx := pupils[i][0].ptX + eyes[i].x as real;
      var sy := pupils[i][0].ptY + eyes[i].y as real;
      ((sx - r[i].0 as real == 0.5 || r[i].0 as real - sx == 0.5) ==> r[i].0 % 2 == 0) &&
      ((sy - r[i].1 as real == 0.5 || r[i].1 as real - sy == 0.5) ==> r[i].1 % 2 == 0)
  {
    var n := Min(|pupils|, |eyes|);
    seq(n, i requires 0 <= i < n =>
      if |pupils[i]| > 0 then TupleAdd(pupils[i][0].ptX, pupils[i][0].ptY, eyes[i].x as real, eyes[i].y as real)
      else Centre(eyes[i]))
  }

  /** The blob detector's keypoints for each box, in box order. */
  function BlobsFor(d: Detections, eyes: seq<Box>): (r: seq<seq<KeyPoint>>)
    ensures |r| == |eyes|
  {
    seq(|eyes|, i requires 0 <= i < |eyes| => d.blobs(eyes[i]))
  }

  function Area(b: Box): int { b.w * b.h }

  /** `max(faces, key=w*h)`: the index of the first face of largest area. */
  function LargestFace(faces: seq<Box>): (i: nat)
    requires |faces| > 0
    ensures i < |faces|
    ensures forall j :: 0 <= j < |faces| ==> Area(faces[j]) <= Area(faces[i])
    ensures forall j :: 0 <= j < i ==> Area(faces[j]) < Area(faces[i])
  {
    if |faces| == 1 then 0
    else
      var k := LargestFace(faces[..|faces| - 1]);
      assert forall j :: 0 <= j < |faces| - 1 ==> faces[..|faces| - 1][j] == faces[j];
      if Area(faces[|faces| - 1]) > Area(faces[k]) then |faces| - 1 else k
  }

  /** `eyeCascadeDetector`: the centres of the eye boxes. */
  function EyeCascadeDetector(d: Detections): (r: seq<Point>)
    ensures |r| == |d.eyes|
    ensures forall i :: 0 <= i < |d.eyes| ==> r[i] == Centre(d.eyes[i])
  {
    CenterCoordinates(d.eyes)
  }

  /** `eyeCascadeBlobDetector`: a pupil per eye box, found by the blob detector. */
  function EyeCascadeBlobDetector(d: Detections): (r: seq<Point>)
    ensures |r| == |d.eyes|
    ensures forall i :: 0 <= i < |d.eyes| && d.blobs(d.eyes[i]) == [] ==> r[i] == Centre(d.eyes[i])
    ensures forall i :: 0 <= i < |d.eyes| && d.blobs(d.eyes[i]) != [] ==>
      var kp := d.blobs(d.eyes[i])[0];
      -0.5 <= kp.ptX + d.eyes[i].x as real - r[i].0 as real <= 0.5 &&
      -0.5 <= kp.ptY + d.eyes[i].y as real - r[i].1 as real <= 0.5
    ensures forall i :: 0 <= i < |d.eyes| && d.blobs(d.eyes[i]) != [] ==>
      var sx := d.blobs(d.eyes[i])[0].ptX + d.eyes[i].x as real;
      var sy := d.blobs(d.eyes[i])[0].ptY + d.eyes[i].y as real;
      ((sx - r[i].0 as real == 0.5 || r[i].0 as real - sx == 0.5) ==> r[i].0 % 2 == 0) &&
      ((sy - r[i].1 as real == 0.5 || r[i].1 as real - sy == 0.5) ==> r[i].1 % 2 == 0)
  {
    GetPupils(BlobsFor(d, d.eyes), d.eyes)
  }

  /** `faceEyeCascadeDetector`: eye centres within the largest face, moved by
      the face origin. The sum `x + w/2 + faceX` is rounded as a whole. */
  function FaceEyeCascadeDetector(d: Detections): (r: seq<Point>)
    ensures |d.faces| == 0 ==> r == []
    ensures |d.faces| > 0 ==> |r| == |d.eyesInFace(d.faces[LargestFace(d.faces)])|
    ensures |d.faces| > 0 ==>
      var face := d.faces[LargestFace(d.faces)];
      var eyes := d.eyesInFace(face);
      forall i :: 0 <= i < |eyes| ==> r[i] == Centre(Box(eyes[i].x + face.x, eyes[i].y + face.y, eyes[i].w, eyes[i].h))
  {
    if |d.faces| == 0 then []
    else
      var face := d.faces[LargestFace(d.faces)];
      var eyes := d.eyesInFace(face);
      seq(|eyes|, i requires 0 <= i < |eyes| =>
        TupleAdd(eyes[i].x as real + eyes[i].w as real / 2.0, eyes[i].y as real + eyes[i].h as real / 2.0,
                 face.x as real, face.y as real))
  }

  /** `faceEyeCascadeBlobDetector`: the pupils of the eyes found within the
      largest face, moved by the face origin. The blob detector is handed the
      crop of the frame named by each face-relative eye box, as the source does. */
  function FaceEyeCascadeBlobDetector(d: Detections): (r: seq<Point>)
    ensures |d.faces| == 0 ==> r == []
    ensures |d.faces| > 0 ==> |r| == |d.eyesInFace(d.faces[LargestFace(d.faces)])|
  {
    if |d.faces| == 0 then []
    else
      var face := d.faces[LargestFace(d.faces)];
      var eyes := d.eyesInFace(face);
      var pupils := GetPupils(BlobsFor(d, eyes), eyes);
      seq(|pupils|, i requires 0 <= i < |pupils| =>
        TupleAdd(pupils[i].0 as real, pupils[i].1 as real, face.x as real, face.y as real))
  }

  /** The undecorated body of `detectEyes`: the chosen detector's points. */
  function RawDetection(t: DetectionType, d: Detections): (r: seq<Point>)
    ensures (t.EyeCascade? || t.EyeCascadeBlob?) ==> |r| == |d.eyes|
    ensures (t.FaceEyeCascade? || t.FaceEyeCascadeBlob?) && |d.faces| == 0 ==> r == []
    ensures (t.FaceEyeCascade? || t.FaceEyeCascadeBlob?) && |d.faces| > 0 ==>
      |r| == |d.eyesInFace(d.faces[LargestFace(d.faces)])|
  {
    match t
    case EyeCascade => EyeCascadeDetector(d)
    case EyeCascadeBlob => EyeCascadeBlobDetector(d)
    case FaceEyeCascade => FaceEyeCascadeDetector(d)
    case FaceEyeCascadeBlob => FaceEyeCascadeBlobDetector(d)
  }

  /** `detectEyes`: dispatch on the detector type, then keep the two topmost
      points; a value that is not a `DetectionType` raises `ValueError`. */
  function DetectEyes(detectorType: Tagged<DetectionType>, d: Detections): (r: Result<seq<Point>>)
    ensures detectorType.Foreign? <==> r.Err?
    ensures r.Err? ==> r.error.ValueError?
  {
    match detectorType
    case Foreign => Err(ValueError("Invalid detector type"))
    case Member(t) => Ok(FilterFalsePositives(RawDetection(t, d)))
  }

  /** For every detector type `detectEyes` returns at most two points: the
      topmost of the detector's points in ascending `y`, no dropped point
      above a kept one, and among points at one height `k` the earliest
      detections first. */
  lemma DetectEyesReturnsTopTwo(t: DetectionType, d: Detections, k: int)
    ensures DetectEyes(Member(t), d).Ok?
    ensures var r := DetectEyes(Member(t), d).value;
      && |r| == Min(2, |RawDetection(t, d)|) <= 2
      && StableSort.SortedBy(r, PointY)
      && multiset(r) <= multiset(RawDetection(t, d))
      && (forall p, q :: p in r && q in multiset(RawDetection(t, d)) - multiset(r) ==> p.1 <= q.1)
      && StableSort.WithKey(r, PointY, k) <= StableSort.WithKey(RawDetection(t, d), PointY, k)
  {
    FilterKeepsTopmost(RawDetection(t, d));
    FilterIsStable(RawDetection(t, d), k);
  }

  /** `getPupils` falls back to the rounded box centre exactly when the blob
      detector found nothing in that box. */
  lemma GetPupilsFallback(pupils: seq<seq<KeyPoint>>, eyes: seq<Box>, i: nat)
    requires i < |pupils| && i < |eyes|
    ensures |pupils[i]| == 0 ==> GetPupils(pupils, eyes)[i] == Centre(eyes[i])
    ensures |pupils[i]| > 0 ==>
      GetPupils(pupils, eyes)[i] == (Round(pupils[i][0].ptX + eyes[i].x as real), Round(pupils[i][0].ptY + eyes[i].y as real))
  {
  }

  /** Both face-first detectors find nothing when the face cascade found no face. */
  lemma NoFaceNoEyes(d: Detections)
    requires |d.faces| == 0
    ensures FaceEyeCascadeDetector(d) == [] && FaceEyeCascadeBlobDetector(d) == []
    ensures DetectEyes(Member(FaceEyeCascade), d) == Ok([])
    ensures DetectEyes(Member(FaceEyeCascadeBlob), d) == Ok([])
  {
  }

  /** The blob face variant returns, for each eye box found in the largest face,
      its whole-pixel pupil moved exactly by that face's origin. */
  lemma FaceBlobPointsAreOffset(d: Detections)
    requires |d.faces| > 0
    ensures var face := d.faces[LargestFace(d.faces)];
      var eyes := d.eyesInFace(face);
      var pupils := GetPupils(BlobsFor(d, eyes), eyes);
      && |FaceEyeCascadeBlobDetector(d)| == |eyes|
      && forall i :: 0 <= i < |eyes| ==>
           FaceEyeCascadeBlobDetector(d)[i] == (pupils[i].0 + face.x, pupils[i].1 + face.y)
  {
    var face := d.faces[LargestFace(d.faces)];
    var eyes := d.eyesInFace(face);
    var pupils := GetPupils(BlobsFor(d, eyes), eyes);
    forall i | 0 <= i < |eyes|
      ensures FaceEyeCascadeBlobDetector(d)[i] == (pupils[i].0 + face.x, pupils[i].1 + face.y)
    {
      RoundOfInteger(pupils[i].0 + face.x);
      RoundOfInteger(pupils[i].1 + face.y);
    }
  }

  /** The plain face variant returns one point per eye box of the largest
      face, within one pixel per axis of that box's rounded centre moved by the
      face origin (rounding the sum can pick the other even neighbour on a tie). */
  lemma FacePointsNearOffsetCentres(d: Detections)
    requires |d.faces| > 0
    ensures var face := d.faces[LargestFace(d.faces)];
      var eyes := d.eyesInFace(face);
      && |FaceEyeCascadeDetector(d)| == |eyes|
      && forall i :: 0 <= i < |eyes| ==>
           FaceEyeCascadeDetector(d)[i].0 - (Centre(eyes[i]).0 + face.x) in {-1, 0, 1} &&
           FaceEyeCascadeDetector(d)[i].1 - (Centre(eyes[i]).1 + face.y) in {-1, 0, 1}
  {
    var face := d.faces[LargestFace(d.faces)];
    var eyes := d.eyesInFace(face);
    forall i | 0 <= i < |eyes|
      ensures FaceEyeCascadeDetector(d)[i].0 - (Centre(eyes[i]).0 + face.x) in {-1, 0, 1}
      ensures FaceEyeCascadeDetector(d)[i].1 - (Centre(eyes[i]).1 + face.y) in {-1, 0, 1}
    {
      RoundShift(eyes[i].x as real + eyes[i].w as real / 2.0, face.x);
      RoundShift(eyes[i].y as real + eyes[i].h as real / 2.0, face.y);
    }
  }

  /** A tie shows the difference: an eye box at x = 0 of width 5 in a face at
      x = 1 gives round(3.5) = 4, while round(2.5) + 1 = 3. */
  lemma FaceRoundingExample()
    ensures Round(0.0 + 5.0 / 2.0 + 1.0) == 4
    ensures Round(0.0 + 5.0 / 2.0) + 1 == 3
  {
    RoundIsUnique(3.5, 4);
    RoundIsUnique(2.5, 2);
  }
}
