/** The first prototype's `detectEyes` (top-level `detectEyes.py`): the eye
    cascade's boxes, the two whose top edge is highest, as rounded centres. */
module RootDetectEyes {
  import opened Common
  import StableSort
  import opened IrisDetectEyes

  function TopEdge(b: Box): int { b.y }

  function CentreY(b: Box): int { Centre(b).1 }

  /** `detectEyes(image, detector)` given the boxes the cascade reported. */
  function DetectEyes(eyes: seq<Box>): (r: seq<Point>)
    ensures |r| == Min(2, |eyes|)
    ensures forall i :: 0 <= i < |r| ==> exists b :: b in eyes && r[i] == Centre(b)
  {
    var sorted := StableSort.Sort(eyes, TopEdge);
    var kept := sorted[..Min(2, |eyes|)];
    StableSort.PrefixSplit(sorted, Min(2, |eyes|));
    assert forall i :: 0 <= i < |kept| ==> kept[i] in multiset(eyes);
    StableSort.Map(Centre, kept)
  }

  /** At most two points come back, the centres of boxes that the cascade
      reported, and no dropped box starts higher than a kept one. */
  lemma DetectEyesKeepsTopmostBoxes(eyes: seq<Box>)
    ensures |DetectEyes(eyes)| == Min(2, |eyes|) <= 2
    ensures var kept := StableSort.Sort(eyes, TopEdge)[..Min(2, |eyes|)];
      && multiset(kept) <= multiset(eyes)
      && StableSort.SortedBy(kept, TopEdge)
      && (forall i :: 0 <= i < |kept| ==> DetectEyes(eyes)[i] == Centre(kept[i]))
      && (forall b, c :: b in kept && c in multiset(eyes) - multiset(kept) ==> b.y <= c.y)
  {
    var kept := StableSort.Sort(eyes, TopEdge)[..Min(2, |eyes|)];
    StableSort.SortPrefixKeepsSmallest(eyes, TopEdge, Min(2, |eyes|));
    assert DetectEyes(eyes) == StableSort.Map(Centre, kept);
    forall b, c | b in kept && c in multiset(eyes) - multiset(kept) ensures b.y <= c.y {
      assert TopEdge(b) <= TopEdge(c);
    }
  }

  /** The vertical centre of a box of even height is exact: no rounding. */
  lemma EvenHeightCentre(b: Box)
    requires b.h % 2 == 0
    ensures Centre(b).1 == b.y + b.h / 2
  {
    assert b.h as real / 2.0 == (b.h / 2) as real;
    RoundOfInteger(b.y + b.h / 2);
  }

  /** When every box has the same even height, sorting boxes by their top
      edge and sorting centres by their height pick the same two points, so
      this prototype and the IrisSoftware pipeline agree on them. */
  lemma AgreesWithIrisOnEvenEqualHeights(eyes: seq<Box>, h: int)
    requires h % 2 == 0
    requires forall b :: b in eyes ==> b.h == h
    ensures DetectEyes(eyes) == FilterFalsePositives(CenterCoordinates(eyes))
  {
    var sorted := StableSort.Sort(eyes, TopEdge);
    var n := Min(2, |eyes|);
    SameSortOnEvenEqualHeights(eyes, h);
    StableSort.SortCommutesWithMap(eyes, CentreY, Centre, PointY);
    assert StableSort.Sort(CenterCoordinates(eyes), PointY) == StableSort.Map(Centre, sorted);
    MapPrefix(sorted, n);
  }

  /** With one even height, ordering boxes by top edge and by centre agree. */
  lemma SameSortOnEvenEqualHeights(eyes: seq<Box>, h: int)
    requires h % 2 == 0
    requires forall b :: b in eyes ==> b.h == h
    ensures StableSort.Sort(eyes, TopEdge) == StableSort.Sort(eyes, CentreY)
  {
    forall a, b | a in multiset(eyes) && b in multiset(eyes)
      ensures TopEdge(a) <= TopEdge(b) <==> CentreY(a) <= CentreY(b)
    {
      EvenHeightCentre(a);
      EvenHeightCentre(b);
    }
    StableSort.SortSameOrder(eyes, TopEdge, CentreY);
  }

  lemma MapPrefix(s: seq<Box>, n: nat)
    requires n <= |s|
    ensures StableSort.Map(Centre, s)[..n] == StableSort.Map(Centre, s[..n])
  {
  }

  /** With boxes of different heights the two choose differently: a tall box
      at the top of the frame is kept here but dropped by IrisSoftware, whose
      filter looks at centres. */
  lemma DiffersFromIrisOnMixedHeights(eyes: seq<Box>)
    requires eyes == [Box(0, 0, 10, 10), Box(20, 1, 2, 2), Box(40, 2, 2, 2)]
    ensures DetectEyes(eyes) == [(5, 5), (21, 2)]
    ensures FilterFalsePositives(CenterCoordinates(eyes)) == [(21, 2), (41, 3)]
  {
    ExampleCentres(eyes);
    RootSortOfExample(eyes);
    IrisSortOfExample(CenterCoordinates(eyes));
  }

  /** The centres of the three boxes of the example. */
  lemma ExampleCentres(eyes: seq<Box>)
    requires eyes == [Box(0, 0, 10, 10), Box(20, 1, 2, 2), Box(40, 2, 2, 2)]
    ensures CenterCoordinates(eyes) == [(5, 5), (21, 2), (41, 3)]
    ensures Centre(eyes[0]) == (5, 5) && Centre(eyes[1]) == (21, 2)
  {
    assert Centre(eyes[0]) == (5, 5) by { EvenHeightCentre(eyes[0]); RoundOfInteger(5); }
    assert Centre(eyes[1]) == (21, 2) by { EvenHeightCentre(eyes[1]); RoundOfInteger(21); }
    assert Centre(eyes[2]) == (41, 3) by { EvenHeightCentre(eyes[2]); RoundOfInteger(41); }
  }

  /** The example's boxes are already in order of their top edges, so the
      first two are kept. */
  lemma RootSortOfExample(eyes: seq<Box>)
    requires eyes == [Box(0, 0, 10, 10), Box(20, 1, 2, 2), Box(40, 2, 2, 2)]
    ensures StableSort.Sort(eyes, TopEdge) == eyes
    ensures DetectEyes(eyes) == [(5, 5), (21, 2)]
  {
    ExampleCentres(eyes);
    var t2 := [eyes[2]];
    var t1 := [eyes[1], eyes[2]];
    assert StableSort.Sort(t2, TopEdge) == t2 by { assert t2[1..] == []; }
    assert t1[1..] == t2;
    assert StableSort.Sort(t1, TopEdge) == t1;
    assert eyes[1..] == t1;
    var kept := StableSort.Sort(eyes, TopEdge)[..2];
    assert kept == [eyes[0], eyes[1]];
    assert DetectEyes(eyes) == StableSort.Map(Centre, kept);
  }

  /** Sorting the example's centres by height moves the first to the end,
      where the filter drops it. */
  lemma IrisSortOfExample(centres: seq<Point>)
    requires centres == [(5, 5), (21, 2), (41, 3)]
    ensures StableSort.Sort(centres, PointY) == [(21, 2), (41, 3), (5, 5)]
    ensures FilterFalsePositives(centres) == [(21, 2), (41, 3)]
  {
    var t2 := [centres[2]];
    var t1 := [centres[1], centres[2]];
    assert StableSort.Sort(t2, PointY) == t2 by { assert t2[1..] == []; }
    assert t1[1..] == t2;
    assert StableSort.Sort(t1, PointY) == t1;
    assert centres[1..] == t1;
    assert StableSort.Insert(centres[0], t2, PointY) == t2 + [centres[0]] by {
      assert t2[1..] == [];
    }
    assert StableSort.Insert(centres[0], t1, PointY) == [centres[1]] + StableSort.Insert(centres[0], t2, PointY);
  }
}
