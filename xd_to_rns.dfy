/**
 * The route matcher (xd_to_rns.py): each XD segment is matched to an LRS
 * route by tallying the routes found near points of the segment, first at
 * its begin, middle and end points and then every 50 metres along it.
 *
 * The LRS layer is abstract: the routes near a point, the M value of a
 * point on a named route, a geodesic length and a point at an offset are
 * oracle functions.
 */
module XdToRns {
  import opened Py
  import opened Counter

  /**
   * The LRS and geometry oracles. `nearby` is find_nearby_routes with its
   * default search distance of 10 metres; `pointMp` is the raw M value that
   * get_point_mp finds, or None when any step of it raises.
   */
  datatype Lrs<!G, !P> = Lrs(
    nearby: P -> seq<Name>,
    pointMp: (P, Name) -> Option<real>,
    geodesicLength: G -> real,
    along: (G, int) -> P)

  /** What XDSegment keeps of a row that the matcher uses; the row's geometry is not null. */
  datatype XDSegment<G, P> = XDSegment(xdSegId: int, geom: G, beginPoint: P, midPoint: P, endPoint: P)

  /** One row of the output: [XDSegID, RTE_NM, BEGIN_MSR, END_MSR]. */
  datatype MatchRow = MatchRow(xdSegId: int, rteNm: Name, beginMsr: Msr, endMsr: Msr)

  // ------------------------------------------------------------ get_point_mp

  /** get_point_mp: the M value rounded to three decimals, or None when locating the point raises. */
  function GetPointMp<G, P>(point: P, lrs: Lrs<G, P>, rteNm: Name): (r: Msr)
    ensures r.None? <==> lrs.pointMp(point, rteNm).None?
    ensures r.Some? ==> Abs(r.value - lrs.pointMp(point, rteNm).value) <= 0.0005
  {
    match lrs.pointMp(point, rteNm)
    case None => None
    case Some(mp) =>
      assert Pow10(3) == 1000;
      Some(RoundTo(mp, 3))
  }

  // --------------------------------------------------- get_points_along_line

  /** How many offsets 0, 50, 100, ... lie strictly below `segLen`: ceil(segLen / 50), and 0 when segLen <= 0. */
  function SampleCount(segLen: real): (n: nat)
    ensures segLen <= 0.0 ==> n == 0
    ensures segLen > 0.0 ==> 50.0 * (n as real - 1.0) < segLen <= 50.0 * n as real
  {
    if segLen <= 0.0 then 0
    else
      var f := (segLen / 50.0).Floor;
      assert 50.0 * f as real <= segLen < 50.0 * f as real + 50.0;
      if 50.0 * f as real == segLen then f else f + 1
  }

  /** The points get_points_along_line returns. */
  function SamplePoints<G, P>(geom: G, lrs: Lrs<G, P>): (r: seq<P>)
    ensures |r| == SampleCount(lrs.geodesicLength(geom))
    ensures forall i :: 0 <= i < |r| ==> r[i] == lrs.along(geom, 50 * i)
  {
    seq(SampleCount(lrs.geodesicLength(geom)), i => lrs.along(geom, 50 * i))
  }

  /**
   * get_points_along_line: the points at offsets 0, 50, 100, ... metres
   * strictly below the geodesic length. The step `m` is overwritten by the
   * script, so the result does not depend on it.
   */
  method GetPointsAlongLine<G, P>(geom: G, m: int, lrs: Lrs<G, P>) returns (points: seq<P>)
    ensures |points| == SampleCount(lrs.geodesicLength(geom))
    ensures forall i :: 0 <= i < |points| ==> points[i] == lrs.along(geom, 50 * i)
    ensures points == SamplePoints(geom, lrs)
  {
    var segLen := lrs.geodesicLength(geom);
    points := [];
    var offset := 0;
    while (offset as real) < segLen
      invariant offset == 50 * |points|
      invariant |points| <= SampleCount(segLen)
      invariant forall i :: 0 <= i < |points| ==> points[i] == lrs.along(geom, 50 * i)
      decreases SampleCount(segLen) - |points|
    {
      points := points + [lrs.along(geom, offset)];
      offset := offset + 50;
    }
  }

  // ------------------------------------------------------------- the tallies

  /** Every route returned near each point, in order. */
  function HitsAt<P>(points: seq<P>, nearby: P -> seq<Name>): seq<Name> {
    if points == [] then [] else HitsAt(points[..|points| - 1], nearby) + nearby(points[|points| - 1])
  }

  /** The inner loop: `routes[r] += 1` for every route `r` found near one point. */
  method AddRoutes(routes: Tally, ghost hits: seq<Name>, nearbyRoutes: seq<Name>) returns (r: Tally)
    requires routes == TallyOf(hits)
    ensures r == TallyOf(hits + nearbyRoutes)
  {
    r := routes;
    var ri := 0;
    assert hits + nearbyRoutes[..0] == hits;
    while ri < |nearbyRoutes|
      invariant 0 <= ri <= |nearbyRoutes|
      invariant r == TallyOf(hits + nearbyRoutes[..ri])
    {
      assert hits + nearbyRoutes[..ri + 1] == (hits + nearbyRoutes[..ri]) + [nearbyRoutes[ri]];
      TallyAppend(hits + nearbyRoutes[..ri], nearbyRoutes[ri]);
      r := Increment(r, nearbyRoutes[ri]);
      ri := ri + 1;
    }
    assert nearbyRoutes[..ri] == nearbyRoutes;
  }

  /** The nested loops of both iterations that add up the nearby routes of each point in a Counter. */
  method TallyPoints<P>(points: seq<P>, nearby: P -> seq<Name>) returns (routes: Tally)
    ensures routes == TallyOf(HitsAt(points, nearby))
  {
    routes := [];
    var pi := 0;
    while pi < |points|
      invariant 0 <= pi <= |points|
      invariant routes == TallyOf(HitsAt(points[..pi], nearby))
    {
      routes := AddRoutes(routes, HitsAt(points[..pi], nearby), nearby(points[pi]));
      assert points[..pi + 1][..pi] == points[..pi];
      pi := pi + 1;
    }
    assert points[..pi] == points;
  }

  /** The routes found near the begin, middle and end points. */
  function EndpointHits<G, P>(seg: XDSegment<G, P>, lrs: Lrs<G, P>): seq<Name> {
    HitsAt([seg.beginPoint, seg.midPoint, seg.endPoint], lrs.nearby)
  }

  /** The routes found near the points every 50 metres along the segment. */
  function AlongHits<G, P>(seg: XDSegment<G, P>, lrs: Lrs<G, P>): seq<Name> {
    HitsAt(SamplePoints(seg.geom, lrs), lrs.nearby)
  }

  // --------------------------------------------------------- first_iteration

  /** What first_iteration returns for the routes found near the three points. */
  function FirstTier(hits: seq<Name>): Name {
    var routes := TallyOf(hits);
    if |routes| == 0 then None
    else
      var mostCommonRoutes := GetMostCommon(routes).value;
      if |mostCommonRoutes| == 1 && mostCommonRoutes[0].1 == 3 then mostCommonRoutes[0].0 else None
  }

  /**
   * first_iteration finds a route exactly when one route is the unique most
   * common one and was found three times; with no routes found it fails.
   */
  lemma FirstTierMeaning(hits: seq<Name>, k: Name)
    ensures hits == [] ==> FirstTier(hits) == None
    ensures UniqueMax(hits, k) && Occ(hits, k) == 3 ==> FirstTier(hits) == k
    ensures FirstTier(hits).Some? ==> UniqueMax(hits, FirstTier(hits)) && Occ(hits, FirstTier(hits)) == 3
  {
    TallyCounts(hits);
    if hits != [] {
      SingleMostCommon(hits, k);
      var mc := GetMostCommon(TallyOf(hits)).value;
      if |mc| == 1 {
        SingleMostCommon(hits, mc[0].0);
      }
    }
  }

  /** first_iteration */
  method FirstIteration<G, P>(seg: XDSegment<G, P>, lrs: Lrs<G, P>) returns (r: Name)
    ensures r == FirstTier(EndpointHits(seg, lrs))
  {
    var routes := TallyPoints([seg.beginPoint, seg.midPoint, seg.endPoint], lrs.nearby);
    if |routes| == 0 {
      return None;
    }
    var mostCommon := GetMostCommon(routes);
    var mostCommonRoutes := mostCommon.value;
    if |mostCommonRoutes| == 1 && mostCommonRoutes[0].1 == 3 {
      r := mostCommonRoutes[0].0;
    } else {
      r := None;
    }
  }

  // -------------------------------------------------------- second_iteration

  /**
   * What second_iteration, as written, returns for the routes found along
   * the segment: it has no guard for an empty Counter, so get_most_common
   * raises ValueError when no route was found.
   */
  function SecondTier(hits: seq<Name>): Result<Name> {
    match GetMostCommon(TallyOf(hits))
    case Err(e) => Err(e)
    case Ok(mostCommonRoutes) => Ok(if |mostCommonRoutes| == 1 then mostCommonRoutes[0].0 else None)
  }

  /** second_iteration with the empty-Counter guard that first_iteration has. */
  function SecondTierGuarded(hits: seq<Name>): Name {
    var routes := TallyOf(hits);
    if |routes| == 0 then None
    else
      var mostCommonRoutes := GetMostCommon(routes).value;
      if |mostCommonRoutes| == 1 then mostCommonRoutes[0].0 else None
  }

  /**
   * As written, second_iteration raises exactly when no route was found;
   * otherwise it agrees with the guarded version.
   */
  lemma SecondTierRaisesWithoutHits(hits: seq<Name>)
    ensures SecondTier(hits) == Err(ValueError) <==> hits == []
    ensures hits != [] ==> SecondTier(hits) == Ok(SecondTierGuarded(hits))
  {
    TallyCounts(hits);
  }

  /** A segment of zero length has no sample points, so second_iteration raises for it. */
  lemma ZeroLengthSegmentRaises<G, P>(seg: XDSegment<G, P>, lrs: Lrs<G, P>)
    requires lrs.geodesicLength(seg.geom) <= 0.0
    ensures SecondTier(AlongHits(seg, lrs)) == Err(ValueError)
  {
    assert SamplePoints(seg.geom, lrs) == [];
    SecondTierRaisesWithoutHits(AlongHits(seg, lrs));
  }

  /**
   * The guarded second_iteration finds a route exactly when one route is
   * the unique most common one, whatever its count.
   */
  lemma SecondTierMeaning(hits: seq<Name>, k: Name)
    ensures hits == [] ==> SecondTierGuarded(hits) == None
    ensures UniqueMax(hits, k) ==> SecondTierGuarded(hits) == k
    ensures SecondTierGuarded(hits).Some? ==> UniqueMax(hits, SecondTierGuarded(hits))
  {
    TallyCounts(hits);
    if hits != [] {
      SingleMostCommon(hits, k);
      var mc := GetMostCommon(TallyOf(hits)).value;
      if |mc| == 1 {
        SingleMostCommon(hits, mc[0].0);
      }
    }
  }

  /** second_iteration as written. */
  method SecondIteration<G, P>(seg: XDSegment<G, P>, lrs: Lrs<G, P>) returns (r: Result<Name>)
    ensures r == SecondTier(AlongHits(seg, lrs))
  {
    var points := GetPointsAlongLine(seg.geom, 50, lrs);
    var routes := TallyPoints(points, lrs.nearby);
    var mostCommon := GetMostCommon(routes);
    if mostCommon.Err? {
      return Err(mostCommon.error);
    }
    var mostCommonRoutes := mostCommon.value;
    if |mostCommonRoutes| == 1 {
      r := Ok(mostCommonRoutes[0].0);
    } else {
      r := Ok(None);
    }
  }

  /** second_iteration, returning None when no route was found. */
  method SecondIterationGuarded<G, P>(seg: XDSegment<G, P>, lrs: Lrs<G, P>) returns (r: Name)
    ensures r == SecondTierGuarded(AlongHits(seg, lrs))
  {
    var points := GetPointsAlongLine(seg.geom, 50, lrs);
    var routes := TallyPoints(points, lrs.nearby);
    if |routes| == 0 {
      return None;
    }
    var mostCommon := GetMostCommon(routes);
    var mostCommonRoutes := mostCommon.value;
    if |mostCommonRoutes| == 1 {
      r := mostCommonRoutes[0].0;
    } else {
      r := None;
    }
  }

  // --------------------------------------------------------- match_xd_to_lrs

  /** third_iteration is a stub: it returns None. */
  function ThirdIteration<G, P>(seg: XDSegment<G, P>): Option<MatchRow> {
    None
  }

  /** The row for a segment placed on route `r`. */
  function Located<G, P>(seg: XDSegment<G, P>, r: Name, lrs: Lrs<G, P>): MatchRow {
    MatchRow(seg.xdSegId, r, GetPointMp(seg.beginPoint, lrs, r), GetPointMp(seg.endPoint, lrs, r))
  }

  /** The row match_xd_to_lrs appends for one segment, with the guarded second tier. */
  function MatchOne<G, P>(seg: XDSegment<G, P>, lrs: Lrs<G, P>): MatchRow {
    var first := FirstTier(EndpointHits(seg, lrs));
    if TruthyName(first) then Located(seg, first, lrs)
    else
      var second := SecondTierGuarded(AlongHits(seg, lrs));
      if TruthyName(second) then Located(seg, second, lrs)
      else
        match ThirdIteration(seg)
        case Some(row) => row
        case None => MatchRow(seg.xdSegId, None, None, None)
  }

  /**
   * The row for a segment: a route found by the first tier wins and the
   * second tier is not consulted; otherwise a route found by the second; a
   * matched row carries the rounded M values of the begin and end points on
   * that route; an unmatched segment gets [id, None, None, None].
   */
  lemma MatchOneMeaning<G, P>(seg: XDSegment<G, P>, lrs: Lrs<G, P>, k: Name)
    ensures MatchOne(seg, lrs).xdSegId == seg.xdSegId
    ensures UniqueMax(EndpointHits(seg, lrs), k) && Occ(EndpointHits(seg, lrs), k) == 3 && TruthyName(k) ==>
              MatchOne(seg, lrs) == Located(seg, k, lrs)
    ensures !TruthyName(FirstTier(EndpointHits(seg, lrs))) && UniqueMax(AlongHits(seg, lrs), k) && TruthyName(k) ==>
              MatchOne(seg, lrs) == Located(seg, k, lrs)
    ensures MatchOne(seg, lrs).rteNm.Some? ==>
              var r := MatchOne(seg, lrs).rteNm;
              TruthyName(r) && MatchOne(seg, lrs) == Located(seg, r, lrs) &&
              ((UniqueMax(EndpointHits(seg, lrs), r) && Occ(EndpointHits(seg, lrs), r) == 3) ||
               UniqueMax(AlongHits(seg, lrs), r))
    ensures MatchOne(seg, lrs).rteNm.None? ==> MatchOne(seg, lrs) == MatchRow(seg.xdSegId, None, None, None)
  {
    FirstTierMeaning(EndpointHits(seg, lrs), k);
    SecondTierMeaning(AlongHits(seg, lrs), k);
  }

  /** The body of the cursor loop of match_xd_to_lrs for one segment, with the guarded second tier. */
  method MatchSegment<G, P>(seg: XDSegment<G, P>, lrs: Lrs<G, P>) returns (row: MatchRow)
    ensures row == MatchOne(seg, lrs)
  {
    var segResults := FirstIteration(seg, lrs);
    if TruthyName(segResults) {
      return MatchRow(seg.xdSegId, segResults, GetPointMp(seg.beginPoint, lrs, segResults),
                      GetPointMp(seg.endPoint, lrs, segResults));
    }
    segResults := SecondIterationGuarded(seg, lrs);
    if TruthyName(segResults) {
      return MatchRow(seg.xdSegId, segResults, GetPointMp(seg.beginPoint, lrs, segResults),
                      GetPointMp(seg.endPoint, lrs, segResults));
    }
    var third := ThirdIteration(seg);
    row := match third
      case Some(r) => r
      case None => MatchRow(seg.xdSegId, None, None, None);
  }

  /** match_xd_to_lrs with the guarded second tier: one row per segment, in cursor order. */
  method MatchXdToLrs<G, P>(segs: seq<XDSegment<G, P>>, lrs: Lrs<G, P>) returns (output: seq<MatchRow>)
    ensures |output| == |segs|
    ensures forall i :: 0 <= i < |segs| ==> output[i] == MatchOne(segs[i], lrs)
  {
    ghost var match1 := seg => MatchOne(seg, lrs);
    output := [];
    var i := 0;
    while i < |segs|
      invariant 0 <= i <= |segs|
      invariant output == Mapped(match1, segs[..i])
    {
      var row := MatchSegment(segs[i], lrs);
      assert segs[..i + 1][..i] == segs[..i];
      output := output + [row];
      i := i + 1;
    }
    assert segs[..i] == segs;
    MappedRows(match1, segs);
  }

  // ------------------------------------------- match_xd_to_lrs as written

  /**
   * The segments on which match_xd_to_lrs as written raises: the first
   * tier finds nothing and no route is found along the segment, so
   * second_iteration raises ValueError.
   */
  predicate AbortsMatch<G, P>(seg: XDSegment<G, P>, lrs: Lrs<G, P>) {
    !TruthyName(FirstTier(EndpointHits(seg, lrs))) && AlongHits(seg, lrs) == []
  }

  /** The row match_xd_to_lrs as written appends for one segment, or the ValueError it raises. */
  function MatchOneAsWritten<G, P>(seg: XDSegment<G, P>, lrs: Lrs<G, P>): Result<MatchRow> {
    var first := FirstTier(EndpointHits(seg, lrs));
    if TruthyName(first) then Ok(Located(seg, first, lrs))
    else
      match SecondTier(AlongHits(seg, lrs))
      case Err(e) => Err(e)
      case Ok(second) =>
        if TruthyName(second) then Ok(Located(seg, second, lrs))
        else
          match ThirdIteration(seg)
          case Some(row) => Ok(row)
          case None => Ok(MatchRow(seg.xdSegId, None, None, None))
  }

  /**
   * As written, one segment raises ValueError exactly when it is a segment
   * AbortsMatch names, and otherwise gets the row of the guarded version.
   */
  lemma MatchOneAsWrittenMeaning<G, P>(seg: XDSegment<G, P>, lrs: Lrs<G, P>)
    ensures MatchOneAsWritten(seg, lrs).Err? <==> AbortsMatch(seg, lrs)
    ensures MatchOneAsWritten(seg, lrs).Err? ==> MatchOneAsWritten(seg, lrs).error == ValueError
    ensures !AbortsMatch(seg, lrs) ==> MatchOneAsWritten(seg, lrs) == Ok(MatchOne(seg, lrs))
  {
    SecondTierRaisesWithoutHits(AlongHits(seg, lrs));
  }

  /** The loop body of match_xd_to_lrs as written, as a step that may raise. */
  function MatchStep<G, P>(lrs: Lrs<G, P>): XDSegment<G, P> -> Result<MatchRow> {
    seg => MatchOneAsWritten(seg, lrs)
  }

  /**
   * The loop of match_xd_to_lrs as written raises, with ValueError, exactly
   * when some segment is one AbortsMatch names; otherwise it yields the
   * guarded version's row for every segment.
   */
  lemma MatchAllAsWrittenMeaning<G, P>(segs: seq<XDSegment<G, P>>, lrs: Lrs<G, P>)
    ensures TryMapped(MatchStep(lrs), segs).Err? <==> exists i :: 0 <= i < |segs| && AbortsMatch(segs[i], lrs)
    ensures TryMapped(MatchStep(lrs), segs).Err? ==> TryMapped(MatchStep(lrs), segs).error == ValueError
    ensures TryMapped(MatchStep(lrs), segs).Ok? ==>
              var rows := TryMapped(MatchStep(lrs), segs).value;
              |rows| == |segs| && forall i :: 0 <= i < |segs| ==> rows[i] == MatchOne(segs[i], lrs)
  {
    var step := MatchStep(lrs);
    TryMappedRows(step, segs);
    forall i | 0 <= i < |segs|
      ensures step(segs[i]).Err? <==> AbortsMatch(segs[i], lrs)
      ensures step(segs[i]).Err? ==> step(segs[i]).error == ValueError
      ensures !AbortsMatch(segs[i], lrs) ==> step(segs[i]) == Ok(MatchOne(segs[i], lrs))
    {
      MatchOneAsWrittenMeaning(segs[i], lrs);
    }
  }

  /**
   * One zero-length segment that the first tier does not match, anywhere in
   * the layer, makes match_xd_to_lrs as written raise, although the
   * corrected program gives it the unmatched row.
   */
  lemma ZeroLengthSegmentAbortsRun<G, P>(segs: seq<XDSegment<G, P>>, lrs: Lrs<G, P>, i: nat)
    requires i < |segs| && lrs.geodesicLength(segs[i].geom) <= 0.0
    requires !TruthyName(FirstTier(EndpointHits(segs[i], lrs)))
    ensures TryMapped(MatchStep(lrs), segs) == Err(ValueError)
    ensures MatchOne(segs[i], lrs) == MatchRow(segs[i].xdSegId, None, None, None)
  {
    assert SamplePoints(segs[i].geom, lrs) == [];
    assert AbortsMatch(segs[i], lrs);
    MatchAllAsWrittenMeaning(segs, lrs);
    SecondTierMeaning(AlongHits(segs[i], lrs), None);
  }

  /** The body of the cursor loop of match_xd_to_lrs as written, calling the raising second_iteration. */
  method MatchSegmentAsWritten<G, P>(seg: XDSegment<G, P>, lrs: Lrs<G, P>) returns (r: Result<MatchRow>)
    ensures r == MatchOneAsWritten(seg, lrs)
    ensures r.Err? <==> AbortsMatch(seg, lrs)
    ensures r.Err? ==> r.error == ValueError
    ensures r.Ok? ==> r.value == MatchOne(seg, lrs)
  {
    MatchOneAsWrittenMeaning(seg, lrs);
    var segResults := FirstIteration(seg, lrs);
    if TruthyName(segResults) {
      return Ok(MatchRow(seg.xdSegId, segResults, GetPointMp(seg.beginPoint, lrs, segResults),
                         GetPointMp(seg.endPoint, lrs, segResults)));
    }
    var second := SecondIteration(seg, lrs);
    if second.Err? {
      return Err(second.error);
    }
    segResults := second.value;
    if TruthyName(segResults) {
      return Ok(MatchRow(seg.xdSegId, segResults, GetPointMp(seg.beginPoint, lrs, segResults),
                         GetPointMp(seg.endPoint, lrs, segResults)));
    }
    var third := ThirdIteration(seg);
    r := match third
      case Some(row) => Ok(row)
      case None => Ok(MatchRow(seg.xdSegId, None, None, None));
  }

  /**
   * match_xd_to_lrs as written: the ValueError of the first segment that
   * AbortsMatch names escapes and no output is returned; when there is no
   * such segment, one row per segment in cursor order, the rows of the
   * guarded version.
   */
  method MatchXdToLrsAsWritten<G, P>(segs: seq<XDSegment<G, P>>, lrs: Lrs<G, P>) returns (r: Result<seq<MatchRow>>)
    ensures r.Err? <==> exists i :: 0 <= i < |segs| && AbortsMatch(segs[i], lrs)
    ensures r.Err? ==> r.error == ValueError
    ensures r.Ok? ==> |r.value| == |segs| && forall i :: 0 <= i < |segs| ==> r.value[i] == MatchOne(segs[i], lrs)
  {
    ghost var step := MatchStep(lrs);
    var output := [];
    var i := 0;
    r := Ok([]);
    while i < |segs|
      invariant 0 <= i <= |segs|
      invariant TryMapped(step, segs[..i]) == Ok(output)
    {
      var row := MatchSegmentAsWritten(segs[i], lrs);
      assert segs[..i + 1][..i] == segs[..i];
      if row.Err? {
        assert TryMapped(step, segs[..i + 1]) == Err(row.error);
        TryMappedStops(step, segs, i + 1);
        r := Err(row.error);
        break;
      }
      output := output + [row.value];
      i := i + 1;
    }
    if r.Ok? {
      assert segs[..i] == segs;
      r := Ok(output);
    }
    assert r == TryMapped(step, segs);
    MatchAllAsWrittenMeaning(segs, lrs);
  }
}
