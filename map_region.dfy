/**
 * The map screen's region fit: a bounding box folded over the annotations' coordinates,
 * then its midpoint and a span padded by a tenth. Reals keep the arithmetic exact.
 */
module MapRegion {
  import opened Wrappers
  import opened Geo

  const RegionMeters: real := 1000.0
  const ExtraSpace: real := 1.1

  datatype Span = Span(latitudeDelta: real, longitudeDelta: real)

  /**
   * `AroundPoint` is what `MKCoordinateRegionMakeWithDistance` is asked for (a centre and
   * two distances in metres); `Fitted` is a region given by centre and span in degrees.
   */
  datatype Region =
    | AroundPoint(center: Coordinate, latitudinalMeters: real, longitudinalMeters: real)
    | Fitted(center: Coordinate, span: Span)

  /** The two corners the loop keeps: `topLeft` holds the largest latitude and smallest longitude. */
  datatype Box = Box(topLeft: Coordinate, bottomRight: Coordinate)

  /** The corners before the first annotation: an empty box turned inside out. */
  const InitialBox: Box := Box(Coordinate(-90.0, 180.0), Coordinate(90.0, -180.0))

  function Max(a: real, b: real): real { if a < b then b else a }
  function Min(a: real, b: real): real { if b < a then b else a }
  function Abs(x: real): real { if x < 0.0 then -x else x }

  /** One pass of the loop body: the box grown to take in `c`. */
  function Widen(b: Box, c: Coordinate): (r: Box)
    ensures Contains(r, c)
    ensures r.topLeft.latitude >= b.topLeft.latitude && r.bottomRight.latitude <= b.bottomRight.latitude
    ensures r.topLeft.longitude <= b.topLeft.longitude && r.bottomRight.longitude >= b.bottomRight.longitude
  {
    Box(Coordinate(Max(b.topLeft.latitude, c.latitude), Min(b.topLeft.longitude, c.longitude)),
        Coordinate(Min(b.bottomRight.latitude, c.latitude), Max(b.bottomRight.longitude, c.longitude)))
  }

  predicate Contains(b: Box, c: Coordinate) {
    b.bottomRight.latitude <= c.latitude <= b.topLeft.latitude &&
    b.topLeft.longitude <= c.longitude <= b.bottomRight.longitude
  }

  /** The corners after the loop has visited every element of `cs`, in order. */
  function Fold(cs: seq<Coordinate>): Box
  {
    if |cs| == 0 then InitialBox else Widen(Fold(cs[..|cs| - 1]), cs[|cs| - 1])
  }

  predicate InRange(c: Coordinate) {
    -90.0 <= c.latitude <= 90.0 && -180.0 <= c.longitude <= 180.0
  }

  function Center(b: Box): Coordinate {
    Coordinate(b.topLeft.latitude - (b.topLeft.latitude - b.bottomRight.latitude) / 2.0,
               b.topLeft.longitude - (b.topLeft.longitude - b.bottomRight.longitude) / 2.0)
  }

  function SpanOf(b: Box): Span {
    Span(Abs(b.topLeft.latitude - b.bottomRight.latitude) * ExtraSpace,
         Abs(b.topLeft.longitude - b.bottomRight.longitude) * ExtraSpace)
  }

  /** What `region(for:)` asks of the map view, before `regionThatFits` adjusts it. */
  function FitRegion(annotations: seq<Coordinate>, userLocation: Coordinate): (r: Region)
    ensures |annotations| == 0 ==> r == AroundPoint(userLocation, RegionMeters, RegionMeters)
    ensures |annotations| == 1 ==> r == AroundPoint(annotations[0], RegionMeters, RegionMeters)
    ensures |annotations| >= 2 ==> r.Fitted? && forall i :: 0 <= i < |annotations| ==>
      Contains(Fold(annotations), annotations[i])
  {
    if |annotations| == 0 then
      AroundPoint(userLocation, RegionMeters, RegionMeters)
    else if |annotations| == 1 then
      AroundPoint(annotations[|annotations| - 1], RegionMeters, RegionMeters)
    else
      FoldContainsAll(annotations);
      var box := Fold(annotations);
      Fitted(Center(box), SpanOf(box))
  }

  /** `region(for:)`: the three cases, and in the third the `for` loop over the annotations. */
  method RegionFor(annotations: seq<Coordinate>, userLocation: Coordinate) returns (r: Region)
    ensures r == FitRegion(annotations, userLocation)
  {
    if |annotations| == 0 {
      r := AroundPoint(userLocation, RegionMeters, RegionMeters);
    } else if |annotations| == 1 {
      r := AroundPoint(annotations[|annotations| - 1], RegionMeters, RegionMeters);
    } else {
      var topLeft := InitialBox.topLeft;
      var bottomRight := InitialBox.bottomRight;
      for i := 0 to |annotations|
        invariant Box(topLeft, bottomRight) == Fold(annotations[..i])
      {
        var c := annotations[i];
        assert annotations[..i + 1][..i] == annotations[..i];
        topLeft := Coordinate(Max(topLeft.latitude, c.latitude), Min(topLeft.longitude, c.longitude));
        bottomRight := Coordinate(Min(bottomRight.latitude, c.latitude), Max(bottomRight.longitude, c.longitude));
      }
      assert annotations[..|annotations|] == annotations;
      var box := Box(topLeft, bottomRight);
      r := Fitted(Center(box), SpanOf(box));
    }
  }

  /** Every visited coordinate lies inside the folded box. */
  lemma {:induction false} FoldContainsAll(cs: seq<Coordinate>)
    ensures forall i :: 0 <= i < |cs| ==> Contains(Fold(cs), cs[i])
    decreases |cs|
  {
    if |cs| > 0 {
      var init := cs[..|cs| - 1];
      FoldContainsAll(init);
      forall i | 0 <= i < |cs|
        ensures Contains(Fold(cs), cs[i])
      {
        if i < |cs| - 1 {
          assert cs[i] == init[i];
        }
      }
    }
  }

  /**
   * For a non-empty list of in-range coordinates each corner value is attained by some
   * coordinate: together with containment, the fold yields the true extremes.
   */
  lemma {:induction false} FoldAttained(cs: seq<Coordinate>)
    requires |cs| > 0
    requires forall i :: 0 <= i < |cs| ==> InRange(cs[i])
    ensures exists i :: 0 <= i < |cs| && Fold(cs).topLeft.latitude == cs[i].latitude
    ensures exists i :: 0 <= i < |cs| && Fold(cs).topLeft.longitude == cs[i].longitude
    ensures exists i :: 0 <= i < |cs| && Fold(cs).bottomRight.latitude == cs[i].latitude
    ensures exists i :: 0 <= i < |cs| && Fold(cs).bottomRight.longitude == cs[i].longitude
    decreases |cs|
  {
    var n := |cs| - 1;
    var init := cs[..n];
    var last := cs[n];
    if n == 0 {
      assert InRange(cs[0]);
      assert Fold(cs) == Widen(InitialBox, last);
    } else {
      forall i | 0 <= i < |init|
        ensures InRange(init[i])
      {
        assert init[i] == cs[i];
      }
      FoldAttained(init);
      var b := Fold(init);
      assert Fold(cs) == Widen(b, last);
      var i1 :| 0 <= i1 < |init| && b.topLeft.latitude == init[i1].latitude;
      var i2 :| 0 <= i2 < |init| && b.topLeft.longitude == init[i2].longitude;
      var i3 :| 0 <= i3 < |init| && b.bottomRight.latitude == init[i3].latitude;
      var i4 :| 0 <= i4 < |init| && b.bottomRight.longitude == init[i4].longitude;
      assert init[i1] == cs[i1] && init[i2] == cs[i2] && init[i3] == cs[i3] && init[i4] == cs[i4];
    }
  }

  /** The box of any non-empty list is not inside out. */
  lemma NonEmptyBoxIsOrdered(cs: seq<Coordinate>)
    requires |cs| > 0
    ensures Fold(cs).bottomRight.latitude <= Fold(cs).topLeft.latitude
    ensures Fold(cs).topLeft.longitude <= Fold(cs).bottomRight.longitude
  {
    FoldContainsAll(cs);
    assert Contains(Fold(cs), cs[0]);
  }

  /** With two or more annotations the centre is the box's midpoint on each axis, and so lies inside it. */
  lemma CenterIsMidpoint(annotations: seq<Coordinate>, userLocation: Coordinate)
    requires |annotations| >= 2
    ensures var b := Fold(annotations);
      var r := FitRegion(annotations, userLocation);
      r.center.latitude == (b.topLeft.latitude + b.bottomRight.latitude) / 2.0 &&
      r.center.longitude == (b.topLeft.longitude + b.bottomRight.longitude) / 2.0 &&
      Contains(b, r.center)
  {
    NonEmptyBoxIsOrdered(annotations);
  }

  /** Each span is the box's extent times 1.1, hence non-negative and no smaller than the extent. */
  lemma SpanCoversBox(annotations: seq<Coordinate>, userLocation: Coordinate)
    requires |annotations| >= 2
    ensures var b := Fold(annotations);
      var r := FitRegion(annotations, userLocation);
      r.Fitted? &&
      r.span.latitudeDelta == (b.topLeft.latitude - b.bottomRight.latitude) * 11.0 / 10.0 &&
      r.span.longitudeDelta == (b.bottomRight.longitude - b.topLeft.longitude) * 11.0 / 10.0 &&
      r.span.latitudeDelta >= b.topLeft.latitude - b.bottomRight.latitude >= 0.0 &&
      r.span.longitudeDelta >= b.bottomRight.longitude - b.topLeft.longitude >= 0.0
  {
    NonEmptyBoxIsOrdered(annotations);
  }

  /** Two points on the equator, two degrees apart: centred between them, 2.2 degrees wide. */
  lemma TwoPointsOnEquator()
    ensures FitRegion([Coordinate(0.0, 0.0), Coordinate(0.0, 2.0)], Coordinate(50.0, 50.0))
      == Fitted(Coordinate(0.0, 1.0), Span(0.0, 2.2))
  {
    var cs := [Coordinate(0.0, 0.0), Coordinate(0.0, 2.0)];
    assert cs[..1] == [Coordinate(0.0, 0.0)];
    assert [Coordinate(0.0, 0.0)][..0] == [];
    assert Fold(cs) == Box(Coordinate(0.0, 0.0), Coordinate(0.0, 2.0));
  }

  /** `MapViewController`: the fetched locations, by their coordinates, and the region last set. */
  class MapController {
    var locations: seq<Coordinate>
    var displayed: Option<Region>

    constructor ()
      ensures locations == [] && displayed == None
    {
      locations := [];
      displayed := None;
    }

    /** `showUser`: a 1000 m by 1000 m region around the user. */
    method ShowUser(userLocation: Coordinate)
      modifies this
      ensures locations == old(locations)
      ensures displayed == Some(AroundPoint(userLocation, RegionMeters, RegionMeters))
    {
      displayed := Some(AroundPoint(userLocation, RegionMeters, RegionMeters));
    }

    /** `showLocations`: the region that fits all locations. */
    method ShowLocations(userLocation: Coordinate)
      modifies this
      ensures locations == old(locations)
      ensures displayed == Some(FitRegion(locations, userLocation))
    {
      var region := RegionFor(locations, userLocation);
      displayed := Some(region);
    }

    /** `viewDidLoad`: replaces the locations with the fetched ones and shows them only when there are any. */
    method ViewDidLoad(fetched: seq<Coordinate>, userLocation: Coordinate)
      modifies this
      ensures locations == fetched
      ensures |fetched| > 0 ==> displayed == Some(FitRegion(fetched, userLocation))
      ensures |fetched| == 0 ==> displayed == old(displayed)
    {
      locations := fetched;
      if |locations| > 0 {
        ShowLocations(userLocation);
      }
    }
  }
}
