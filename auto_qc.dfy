/**
 * The confidence scorer (AutoQC.py): compares an XD segment's geometry with
 * the dissolved conflation geometry on the LRS and turns the comparisons into
 * a score from 0 to 100, which is then written back to the conflation layer.
 *
 * Geometry is abstract: a polyline is its parts' vertices plus the values the
 * script reads off it (first, last and half-way points, length, centroid), and
 * the distance and angle computations are oracle functions.
 */
module AutoQC {
  import opened Py

  /** What the script reads off an arcpy polyline. */
  datatype Geom<P> = Geom(
    parts: seq<seq<P>>,
    firstPoint: P,
    lastPoint: P,
    midPoint: P,      // positionAlongLine(0.5, 'TRUE')
    length: real,     // getLength()
    centroid: P)

  /**
   * The geometry oracles: distance from a point to a polyline, distance
   * between two points, and the planar angle from one point to another.
   */
  datatype Space<!P> = Space(
    distanceToGeom: (P, Geom<P>) -> real,
    distance: (P, P) -> real,
    angle: (P, P) -> real)

  // ------------------------------------------------------ hausdorff_distance

  /** The vertices of a polyline, part by part, in order. */
  function PointsOf<P>(parts: seq<seq<P>>): seq<P> {
    if parts == [] then [] else PointsOf(parts[..|parts| - 1]) + parts[|parts| - 1]
  }

  /** The distance from each point to `g`. */
  function Distances<P>(pts: seq<P>, g: Geom<P>, sp: Space<P>): (r: seq<real>)
    ensures |r| == |pts|
    ensures forall i :: 0 <= i < |pts| ==> r[i] == sp.distanceToGeom(pts[i], g)
  {
    if pts == [] then [] else Distances(pts[..|pts| - 1], g, sp) + [sp.distanceToGeom(pts[|pts| - 1], g)]
  }

  /** `max(ds)` */
  function SeqMax(ds: seq<real>): (r: real)
    requires |ds| > 0
    ensures forall i :: 0 <= i < |ds| ==> ds[i] <= r
    ensures exists i :: 0 <= i < |ds| && ds[i] == r
  {
    if |ds| == 1 then ds[0]
    else
      var m := SeqMax(ds[..|ds| - 1]);
      assert forall i :: 0 <= i < |ds| - 1 ==> ds[..|ds| - 1][i] == ds[i];
      Max(m, ds[|ds| - 1])
  }

  /** `min(ds)` */
  function SeqMin(ds: seq<real>): (r: real)
    requires |ds| > 0
    ensures forall i :: 0 <= i < |ds| ==> r <= ds[i]
    ensures exists i :: 0 <= i < |ds| && ds[i] == r
  {
    if |ds| == 1 then ds[0]
    else
      var m := SeqMin(ds[..|ds| - 1]);
      assert forall i :: 0 <= i < |ds| - 1 ==> ds[..|ds| - 1][i] == ds[i];
      Min(m, ds[|ds| - 1])
  }

  /** `[dist - min(distances) for dist in distances]` */
  function Normalize(ds: seq<real>): (r: seq<real>)
    requires |ds| > 0
    ensures |r| == |ds|
    ensures forall i :: 0 <= i < |ds| ==> r[i] == ds[i] - SeqMin(ds)
  {
    seq(|ds|, i requires 0 <= i < |ds| => ds[i] - SeqMin(ds))
  }

  /** The value hausdorff_distance returns for the sampled distances `ds`. */
  function Hausdorff(ds: seq<real>, normalized: bool): real
    requires |ds| > 0
  {
    if normalized then SeqMax(Normalize(ds)) else SeqMax(ds)
  }

  /**
   * Normalising moves every distance down by the smallest one: the results
   * are all non-negative and their maximum is max - min.
   */
  lemma NormalizedHausdorff(ds: seq<real>)
    requires |ds| > 0
    ensures forall i :: 0 <= i < |ds| ==> Normalize(ds)[i] >= 0.0
    ensures Hausdorff(ds, true) == SeqMax(ds) - SeqMin(ds)
    ensures Hausdorff(ds, true) >= 0.0
  {
    var n := Normalize(ds);
    var hi, lo := SeqMax(ds), SeqMin(ds);
    var h := SeqMax(n);
    var j :| 0 <= j < |n| && n[j] == h;
    assert h <= hi - lo;
    var k :| 0 <= k < |ds| && ds[k] == hi;
    assert n[k] == hi - lo;
  }

  /** With non-negative distances, normalising can only lower the value. */
  lemma NormalizedAtMostPlain(ds: seq<real>)
    requires |ds| > 0
    requires forall i :: 0 <= i < |ds| ==> ds[i] >= 0.0
    ensures Hausdorff(ds, true) <= Hausdorff(ds, false)
  {
    NormalizedHausdorff(ds);
    var j :| 0 <= j < |ds| && ds[j] == SeqMin(ds);
  }

  lemma DistancesAppend<P>(pts: seq<P>, q: P, g: Geom<P>, sp: Space<P>)
    ensures Distances(pts + [q], g, sp) == Distances(pts, g, sp) + [sp.distanceToGeom(q, g)]
  {
    assert (pts + [q])[..|pts|] == pts;
  }

  /** The inner loop of hausdorff_distance over the vertices of one part. */
  method PartDistances<P>(distances: seq<real>, ghost pts: seq<P>, part: seq<P>, geom2: Geom<P>, sp: Space<P>)
    returns (r: seq<real>)
    requires distances == Distances(pts, geom2, sp)
    ensures r == Distances(pts + part, geom2, sp)
  {
    r := distances;
    var qi := 0;
    assert pts + part[..0] == pts;
    while qi < |part|
      invariant 0 <= qi <= |part|
      invariant r == Distances(pts + part[..qi], geom2, sp)
    {
      assert pts + part[..qi + 1] == (pts + part[..qi]) + [part[qi]];
      DistancesAppend(pts + part[..qi], part[qi], geom2, sp);
      r := r + [sp.distanceToGeom(part[qi], geom2)];
      qi := qi + 1;
    }
    assert part[..qi] == part;
  }

  /**
   * hausdorff_distance: the largest distance from a vertex of `geom1` to
   * `geom2`, after subtracting the smallest one when `normalized`; a
   * polyline without vertices makes `max([])` raise ValueError.
   */
  method HausdorffDistance<P>(geom1: Geom<P>, geom2: Geom<P>, normalized: bool, sp: Space<P>) returns (r: Result<real>)
    ensures |PointsOf(geom1.parts)| == 0 ==> r == Err(ValueError)
    ensures |PointsOf(geom1.parts)| > 0 ==> r == Ok(Hausdorff(Distances(PointsOf(geom1.parts), geom2, sp), normalized))
  {
    var distances: seq<real> := [];
    var pi := 0;
    while pi < |geom1.parts|
      invariant 0 <= pi <= |geom1.parts|
      invariant distances == Distances(PointsOf(geom1.parts[..pi]), geom2, sp)
    {
      distances := PartDistances(distances, PointsOf(geom1.parts[..pi]), geom1.parts[pi], geom2, sp);
      assert geom1.parts[..pi + 1][..pi] == geom1.parts[..pi];
      pi := pi + 1;
    }
    assert geom1.parts[..pi] == geom1.parts;
    if |distances| == 0 {
      return Err(ValueError);
    }
    if normalized {
      distances := Normalize(distances);
    }
    r := Ok(SeqMax(distances));
  }

  // -------------------------------------------------------- is_similar_shape

  /**
   * What is_similar_shape returns: (False, None) for a null `geom1`;
   * otherwise the smaller of the two directional values, rounded to two
   * decimals, and whether it is below both a tenth of geom1's length and 10.
   */
  function SimilarShape<P>(geom1: Option<Geom<P>>, geom2: Geom<P>, normalized: bool, sp: Space<P>): (r: Result<(bool, Option<real>)>)
    ensures geom1.None? ==> r == Ok((false, None))
    ensures geom1.Some? ==>
              (r.Err? <==> |PointsOf(geom1.value.parts)| == 0 || |PointsOf(geom2.parts)| == 0)
    ensures r.Err? ==> r == Err(ValueError)
    ensures geom1.Some? && r.Ok? ==>
              var d1 := Distances(PointsOf(geom1.value.parts), geom2, sp);
              var d2 := Distances(PointsOf(geom2.parts), geom1.value, sp);
              r.value.1 == Some(RoundTo(Min(Hausdorff(d1, normalized), Hausdorff(d2, normalized)), 2)) &&
              (r.value.0 <==> r.value.1.value < geom1.value.length / 10.0 && r.value.1.value < 10.0)
  {
    match geom1
    case None => Ok((false, None))
    case Some(g1) =>
      var pts1, pts2 := PointsOf(g1.parts), PointsOf(geom2.parts);
      if |pts1| == 0 || |pts2| == 0 then Err(ValueError)
      else
        var h1 := Hausdorff(Distances(pts1, geom2, sp), normalized);
        var h2 := Hausdorff(Distances(pts2, g1, sp), normalized);
        var h := RoundTo(Min(h1, h2), 2);
        Ok((h < g1.length / 10.0 && h < 10.0, Some(h)))
  }

  /** is_similar_shape, computing both directional values with hausdorff_distance. */
  method IsSimilarShape<P>(geom1: Option<Geom<P>>, geom2: Geom<P>, normalized: bool, sp: Space<P>) returns (r: Result<(bool, Option<real>)>)
    ensures r == SimilarShape(geom1, geom2, normalized, sp)
  {
    if geom1.None? {
      return Ok((false, None));
    }
    var h1 := HausdorffDistance(geom1.value, geom2, normalized, sp);
    if h1.Err? {
      return Err(h1.error);
    }
    var h2 := HausdorffDistance(geom2, geom1.value, normalized, sp);
    if h2.Err? {
      return Err(h2.error);
    }
    var h := RoundTo(Min(h1.value, h2.value), 2);
    r := Ok((h < geom1.value.length / 10.0 && h < 10.0, Some(h)));
  }

  /**
   * When the oracle's distances are non-negative, a pair of shapes that
   * passes the plain test also passes the normalised one.
   */
  lemma NormalizedShapeTestNoStricter<P>(geom1: Geom<P>, geom2: Geom<P>, sp: Space<P>)
    requires forall p :: p in PointsOf(geom1.parts) ==> sp.distanceToGeom(p, geom2) >= 0.0
    requires forall p :: p in PointsOf(geom2.parts) ==> sp.distanceToGeom(p, geom1) >= 0.0
    requires SimilarShape(Some(geom1), geom2, false, sp).Ok? && SimilarShape(Some(geom1), geom2, false, sp).value.0
    ensures SimilarShape(Some(geom1), geom2, true, sp).Ok?
    ensures SimilarShape(Some(geom1), geom2, true, sp).value.0
  {
    var pts1, pts2 := PointsOf(geom1.parts), PointsOf(geom2.parts);
    var d1, d2 := Distances(pts1, geom2, sp), Distances(pts2, geom1, sp);
    assert forall i :: 0 <= i < |d1| ==> d1[i] >= 0.0 by {
      forall i | 0 <= i < |d1| ensures d1[i] >= 0.0 {
        assert pts1[i] in pts1;
      }
    }
    assert forall i :: 0 <= i < |d2| ==> d2[i] >= 0.0 by {
      forall i | 0 <= i < |d2| ensures d2[i] >= 0.0 {
        assert pts2[i] in pts2;
      }
    }
    NormalizedAtMostPlain(d1);
    NormalizedAtMostPlain(d2);
    var hPlain := RoundTo(Min(Hausdorff(d1, false), Hausdorff(d2, false)), 2);
    var hNorm := RoundTo(Min(Hausdorff(d1, true), Hausdorff(d2, true)), 2);
    RoundToMonotone(Min(Hausdorff(d1, true), Hausdorff(d2, true)), Min(Hausdorff(d1, false), Hausdorff(d2, false)), 2);
    assert SimilarShape(Some(geom1), geom2, false, sp) == Ok((hPlain < geom1.length / 10.0 && hPlain < 10.0, Some(hPlain)));
    assert SimilarShape(Some(geom1), geom2, true, sp) == Ok((hNorm < geom1.length / 10.0 && hNorm < 10.0, Some(hNorm)));
  }

  // --------------------------------------------------------- compare_bearing

  datatype BearingPart = Total | First | Second

  /** get_bearing: the planar angle from `begin` to `end`, rounded to a whole degree. */
  function Bearing<P>(begin: P, end: P, sp: Space<P>): int {
    RoundHalfEven(sp.angle(begin, end))
  }

  /**
   * compare_bearing: the absolute difference of the two bearings, and the
   * bearings themselves. The conflation geometry's direction is taken to
   * start at its first point only when that point is strictly closer to the
   * XD begin than its last point; on a tie it starts at the last point. The
   * 'First' and 'Second' halves end, respectively begin, at the half-way points.
   */
  function CompareBearing<P>(xd: Geom<P>, geom2: Geom<P>, part: BearingPart, sp: Space<P>): (r: (int, int, int))
    ensures r.0 >= 0 && (r.0 == r.1 - r.2 || r.0 == r.2 - r.1)
    ensures var forward := sp.distance(xd.firstPoint, geom2.firstPoint) < sp.distance(xd.firstPoint, geom2.lastPoint);
            var begin2 := if forward then geom2.firstPoint else geom2.lastPoint;
            var end2 := if forward then geom2.lastPoint else geom2.firstPoint;
            match part
            case Total => r.1 == Bearing(xd.firstPoint, xd.lastPoint, sp) && r.2 == Bearing(begin2, end2, sp)
            case First => r.1 == Bearing(xd.firstPoint, xd.midPoint, sp) && r.2 == Bearing(begin2, geom2.midPoint, sp)
            case Second => r.1 == Bearing(xd.midPoint, xd.lastPoint, sp) && r.2 == Bearing(geom2.midPoint, end2, sp)
  {
    var xdBegin, xdEnd := xd.firstPoint, xd.lastPoint;
    var forward := sp.distance(xdBegin, geom2.firstPoint) < sp.distance(xdBegin, geom2.lastPoint);
    var begin2 := if forward then geom2.firstPoint else geom2.lastPoint;
    var end2 := if forward then geom2.lastPoint else geom2.firstPoint;
    var xdEnd' := if part == First then xd.midPoint else xdEnd;
    var end2' := if part == First then geom2.midPoint else end2;
    var xdBegin' := if part == Second then xd.midPoint else xdBegin;
    var begin2' := if part == Second then geom2.midPoint else begin2;
    var xb := Bearing(xdBegin', xdEnd', sp);
    var gb := Bearing(begin2', end2', sp);
    (if xb - gb < 0 then gb - xb else xb - gb, xb, gb)
  }

  /** With both ends of the conflation geometry equally far from the XD begin, its direction is reversed. */
  lemma BearingTieTakesLastPoint<P>(xd: Geom<P>, geom2: Geom<P>, sp: Space<P>)
    requires sp.distance(xd.firstPoint, geom2.firstPoint) == sp.distance(xd.firstPoint, geom2.lastPoint)
    ensures CompareBearing(xd, geom2, Total, sp).2 == Bearing(geom2.lastPoint, geom2.firstPoint, sp)
  {
  }

  // ---------------------------------------------------- get_confidence_score

  /** The measurements get_confidence_score takes, before they are scored. */
  datatype TestResults = TestResults(
    totalLengthDifference: real,
    totalLengthRatio: real,
    isSimilarShape: bool,
    isSimilarShapeNormalized: bool,
    centroidDifference: int,
    bearingSum: int)

  predicate IsSimilarLength(t: TestResults) {
    0.75 <= t.totalLengthRatio <= 1.25
  }

  predicate IsSimilarBearing(t: TestResults) {
    t.bearingSum <= 30
  }

  /** The list `subtraction`, in hundredths of the score. */
  function Subtraction(t: TestResults): (r: seq<int>)
    ensures |r| == 6
    ensures forall i :: 0 <= i < 6 ==> r[i] >= 0
    ensures r[5] == 0
  {
    [ if t.totalLengthDifference < 100.0 then 0 else 10,
      if IsSimilarLength(t) then 0 else 30,
      if t.isSimilarShape then 0 else 30,
      if t.isSimilarShapeNormalized then 0 else 30,
      if t.centroidDifference < 100 then 0 else 10,
      if IsSimilarBearing(t) then 0 else 0 ]
  }

  /** The score for the measurements: 100 less the deductions, floored at 0. */
  function ScoreOf(t: TestResults): int {
    var s := 100 - SumInt(Subtraction(t));
    if s < 0 then 0 else s
  }

  /** The deductions, one term per test. */
  lemma SubtractionSum(t: TestResults)
    ensures SumInt(Subtraction(t)) ==
              (if t.totalLengthDifference < 100.0 then 0 else 10) +
              (if IsSimilarLength(t) then 0 else 30) +
              (if t.isSimilarShape then 0 else 30) +
              (if t.isSimilarShapeNormalized then 0 else 30) +
              (if t.centroidDifference < 100 then 0 else 10)
  {
    var s := Subtraction(t);
    assert s[..1][..0] == [];
    assert s[..2][..1] == s[..1];
    assert s[..3][..2] == s[..2];
    assert s[..4][..3] == s[..3];
    assert s[..5][..4] == s[..4];
    assert s[..6][..5] == s[..5];
    assert s[..6] == s;
    assert SumInt(s[..1]) == SumInt(s[..0]) + s[0];
    assert SumInt(s[..2]) == SumInt(s[..1]) + s[1];
    assert SumInt(s[..3]) == SumInt(s[..2]) + s[2];
    assert SumInt(s[..4]) == SumInt(s[..3]) + s[3];
    assert SumInt(s[..5]) == SumInt(s[..4]) + s[4];
    assert SumInt(s[..6]) == SumInt(s[..5]) + s[5];
  }

  /** The score is between 0 and 100. */
  lemma ScoreBounds(t: TestResults)
    ensures 0 <= ScoreOf(t) <= 100
  {
    SubtractionSum(t);
  }

  /** The score is 100 exactly when every test except the bearing test passes. */
  lemma PerfectScoreIff(t: TestResults)
    ensures ScoreOf(t) == 100 <==>
              t.totalLengthDifference < 100.0 && IsSimilarLength(t) &&
              t.isSimilarShape && t.isSimilarShapeNormalized && t.centroidDifference < 100
  {
    SubtractionSum(t);
  }

  /** The bearing test never changes the score. */
  lemma BearingIrrelevant(t: TestResults, bearingSum: int)
    ensures ScoreOf(t.(bearingSum := bearingSum)) == ScoreOf(t)
  {
    SubtractionSum(t);
    SubtractionSum(t.(bearingSum := bearingSum));
  }

  /** Failing every test floors the score at 0 rather than going negative. */
  lemma AllTestsFailedScoresZero(t: TestResults)
    requires t.totalLengthDifference >= 100.0 && !IsSimilarLength(t)
    requires !t.isSimilarShape && !t.isSimilarShapeNormalized && t.centroidDifference >= 100
    ensures ScoreOf(t) == 0
  {
    SubtractionSum(t);
  }

  /** The sum of the three bearing differences that isSimilarBearing tests. */
  function BearingSum<P>(xd: Geom<P>, conflation: Geom<P>, sp: Space<P>): (r: int)
    ensures r >= 0
  {
    CompareBearing(xd, conflation, Total, sp).0 +
    CompareBearing(xd, conflation, First, sp).0 +
    CompareBearing(xd, conflation, Second, sp).0
  }

  /** `round(abs(xdLen - conflationLen), 2)` over the two lengths rounded to 2 decimals. */
  function LengthDifference<P>(xd: Geom<P>, conflation: Geom<P>): real {
    RoundTo(Abs(RoundTo(xd.length, 2) - RoundTo(conflation.length, 2)), 2)
  }

  /** `round(conflationLen / xdLen, 2)`, defined when the rounded XD length is not 0. */
  function LengthRatio<P>(xd: Geom<P>, conflation: Geom<P>): real
    requires RoundTo(xd.length, 2) != 0.0
  {
    RoundTo(RoundTo(conflation.length, 2) / RoundTo(xd.length, 2), 2)
  }

  /**
   * The measurements of get_confidence_score for an XD geometry and a
   * (non-null) conflation geometry. A zero rounded XD length makes the
   * ratio raise ZeroDivisionError; a geometry without vertices makes the
   * shape test raise ValueError.
   */
  function Tests<P>(xd: Geom<P>, conflation: Geom<P>, sp: Space<P>): (r: Result<TestResults>)
    ensures r.Err? <==>
              RoundTo(xd.length, 2) == 0.0 || |PointsOf(xd.parts)| == 0 || |PointsOf(conflation.parts)| == 0
    ensures r == Err(ZeroDivisionError) <==> RoundTo(xd.length, 2) == 0.0
  {
    if RoundTo(xd.length, 2) == 0.0 then Err(ZeroDivisionError)
    else
      var shape := SimilarShape(Some(conflation), xd, false, sp);
      var shapeNormalized := SimilarShape(Some(conflation), xd, true, sp);
      if shape.Err? || shapeNormalized.Err? then Err(ValueError)
      else
        var centroid := RoundHalfEven(sp.distance(xd.centroid, conflation.centroid));
        Ok(TestResults(LengthDifference(xd, conflation), LengthRatio(xd, conflation), shape.value.0,
                       shapeNormalized.value.0, centroid, BearingSum(xd, conflation, sp)))
  }

  /** The loop over `subtraction`, the floor at 0 and the scaling by 100, in hundredths. */
  method FinalScore(subtraction: seq<int>) returns (finalScore: int)
    ensures finalScore == if 100 - SumInt(subtraction) < 0 then 0 else 100 - SumInt(subtraction)
  {
    finalScore := 100;
    var i := 0;
    while i < |subtraction|
      invariant 0 <= i <= |subtraction|
      invariant finalScore == 100 - SumInt(subtraction[..i])
    {
      assert subtraction[..i + 1][..i] == subtraction[..i];
      finalScore := finalScore - subtraction[i];
      i := i + 1;
    }
    assert subtraction[..i] == subtraction;
    if finalScore < 0 {
      finalScore := 0;
    }
  }

  /** The measurement part of get_confidence_score (lines 128-151), for a non-null conflation geometry. */
  method MeasureTests<P>(xdGeom: Geom<P>, conflation: Geom<P>, sp: Space<P>) returns (r: Result<TestResults>)
    ensures r == Tests(xdGeom, conflation, sp)
  {
    var xdLen := RoundTo(xdGeom.length, 2);
    var totalLengthDifference := LengthDifference(xdGeom, conflation);
    if xdLen == 0.0 {
      return Err(ZeroDivisionError);
    }
    var totalLengthRatio := LengthRatio(xdGeom, conflation);
    var shape := IsSimilarShape(Some(conflation), xdGeom, false, sp);
    var shapeNormalized := IsSimilarShape(Some(conflation), xdGeom, true, sp);
    if shape.Err? || shapeNormalized.Err? {
      return Err(ValueError);
    }
    var centroidDifference := RoundHalfEven(sp.distance(xdGeom.centroid, conflation.centroid));
    var bearingSum := BearingSum(xdGeom, conflation, sp);
    r := Ok(TestResults(totalLengthDifference, totalLengthRatio, shape.value.0, shapeNormalized.value.0,
                        centroidDifference, bearingSum));
  }

  /**
   * get_confidence_score: 0 for a null conflation geometry, otherwise the
   * score of the measurements, always between 0 and 100.
   */
  method GetConfidenceScore<P>(xdSegId: int, xdGeom: Geom<P>, conflationGeom: Option<Geom<P>>, sp: Space<P>)
    returns (r: Result<int>)
    ensures conflationGeom.None? ==> r == Ok(0)
    ensures conflationGeom.Some? ==>
              r == match Tests(xdGeom, conflationGeom.value, sp)
                   case Ok(t) => Ok(ScoreOf(t))
                   case Err(e) => Err(e)
    ensures r.Ok? ==> 0 <= r.value <= 100
  {
    if conflationGeom.None? {
      return Ok(0);
    }
    var tests := MeasureTests(xdGeom, conflationGeom.value, sp);
    if tests.Err? {
      return Err(tests.error);
    }
    var finalScore := FinalScore(Subtraction(tests.value));
    ScoreBounds(tests.value);
    r := Ok(finalScore);
  }

  // ---------------------------------------------------- add_confidence_field

  /** One element of `scores`: {'XDSegID': ..., 'confidence': ...}. */
  datatype Score = Score(xdSegId: int, confidence: int)

  /** One row of the conflation layer's update cursor: XDSegID and confidence (null until written). */
  datatype ConfidenceRow = ConfidenceRow(xdSegId: int, confidence: Option<int>)

  function ScorePairs(scores: seq<Score>): (r: seq<(int, int)>)
    ensures |r| == |scores|
    ensures forall i :: 0 <= i < |scores| ==> r[i] == (scores[i].xdSegId, scores[i].confidence)
  {
    seq(|scores|, i requires 0 <= i < |scores| => (scores[i].xdSegId, scores[i].confidence))
  }

  /** The row after the update cursor has visited it with scoreDict. */
  function Updated(row: ConfidenceRow, scoreDict: map<int, int>): ConfidenceRow {
    if row.xdSegId in scoreDict then row.(confidence := Some(scoreDict[row.xdSegId])) else row
  }

  /**
   * A row whose XDSegID has no score is left as it was; a row whose XDSegID
   * has scores gets the confidence of the last of them.
   */
  lemma UpdatedMeaning(row: ConfidenceRow, scores: seq<Score>)
    ensures (forall j :: 0 <= j < |scores| ==> scores[j].xdSegId != row.xdSegId) ==>
              Updated(row, DictFromPairs(ScorePairs(scores))) == row
    ensures forall i :: 0 <= i < |scores| && scores[i].xdSegId == row.xdSegId &&
                        (forall j :: i < j < |scores| ==> scores[j].xdSegId != row.xdSegId) ==>
              Updated(row, DictFromPairs(ScorePairs(scores))) == row.(confidence := Some(scores[i].confidence))
  {
    var pairs := ScorePairs(scores);
    forall i | 0 <= i < |scores| && scores[i].xdSegId == row.xdSegId &&
               (forall j :: i < j < |scores| ==> scores[j].xdSegId != row.xdSegId)
      ensures Updated(row, DictFromPairs(pairs)) == row.(confidence := Some(scores[i].confidence))
    {
      DictFromPairsLastWins(pairs, i);
    }
  }

  /** The loop of lines 100-102 that fills scoreDict. */
  method BuildScoreDict(scores: seq<Score>) returns (scoreDict: map<int, int>)
    ensures scoreDict == DictFromPairs(ScorePairs(scores))
  {
    scoreDict := map[];
    var i := 0;
    while i < |scores|
      invariant 0 <= i <= |scores|
      invariant scoreDict == DictFromPairs(ScorePairs(scores[..i]))
    {
      ghost var pairs := ScorePairs(scores[..i + 1]);
      assert pairs[..|pairs| - 1] == ScorePairs(scores[..i]);
      scoreDict := scoreDict[scores[i].xdSegId := scores[i].confidence];
      i := i + 1;
    }
    assert scores[..i] == scores;
  }

  /**
   * add_confidence_field: every row whose XDSegID has a score gets that
   * score, and every other row is left untouched.
   */
  method AddConfidenceField(rows: array<ConfidenceRow>, scores: seq<Score>)
    modifies rows
    ensures forall i :: 0 <= i < rows.Length ==> rows[i] == Updated(old(rows[i]), DictFromPairs(ScorePairs(scores)))
  {
    var scoreDict := BuildScoreDict(scores);
    var k := 0;
    while k < rows.Length
      invariant 0 <= k <= rows.Length
      invariant forall i :: 0 <= i < k ==> rows[i] == Updated(old(rows[i]), scoreDict)
      invariant forall i :: k <= i < rows.Length ==> rows[i] == old(rows[i])
    {
      var row := rows[k];
      if row.xdSegId in scoreDict {
        rows[k] := row.(confidence := Some(scoreDict[row.xdSegId]));
      }
      k := k + 1;
    }
  }
}
