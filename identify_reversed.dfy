/**
 * The reversed S-route finder (IdentifyReversedSRoutes.py): for every
 * non-prime S-VA route (NP at positions 7-8), each part far enough from its
 * prime route is checked for the side the prime route lies on; a wrong side
 * reports the route, and a wrong side of the prime route seen from the part
 * also reports the prime route.
 */
module IdentifyReversed {
  import opened Py

  /** A row of the LRS layer: RTE_NM, RTE_OPPOSITE_DIRECTION_RTE_NM and SHAPE@. */
  datatype LrsRow<G> = LrsRow(rteNm: string, parentRteNm: Name, geom: G)

  /**
   * The geometry calls of one part, as oracles. `query(geom, i, master)`
   * takes the midpoint of part i, its nearest point on the master route and
   * returns queryPointAndDistance's (distance, rightSide) for that point
   * against `geom`; `masterSide(geom, i, master)` is the rightSide of the
   * part's midpoint against the master route. None stands for a call that
   * raises.
   */
  datatype Probes<!G> = Probes(
    partCount: G -> nat,
    query: (G, nat, G) -> Option<(real, bool)>,
    masterSide: (G, nat, G) -> Option<bool>)

  /** Line 10: geomDict, where a later row with the same name overwrites an earlier one. */
  function GeomPairs<G>(rows: seq<LrsRow<G>>): seq<(Name, G)> {
    if rows == [] then []
    else GeomPairs(rows[..|rows| - 1]) + [(Some(rows[|rows| - 1].rteNm), rows[|rows| - 1].geom)]
  }

  /** Line 17: the routes the script examines. */
  predicate Examined(rteNm: string) {
    StartsWith(rteNm, "S-VA") && Slice(rteNm, 7, 9) == "NP"
  }

  /**
   * Lines 22-51 for part i: what it appends, and whether it raised (which
   * ends the route). A parent missing from geomDict raises KeyError.
   */
  function Part<G>(row: LrsRow<G>, i: nat, geomDict: map<Name, G>, pr: Probes<G>): (seq<Name>, bool) {
    if row.parentRteNm !in geomDict then ([], true)
    else
      var master := geomDict[row.parentRteNm];
      match pr.query(row.geom, i, master)
      case None => ([], true)
      case Some(q) =>
        if q.0 < 1.0 || q.1 then ([], false)
        else
          match pr.masterSide(row.geom, i, master)
          case None => ([Some(row.rteNm)], true)
          case Some(ms) => (if ms then [Some(row.rteNm), row.parentRteNm] else [Some(row.rteNm)], false)
  }

  /** Parts 0 .. n-1 under the try of lines 19-54: what they append, and whether one raised. */
  function Steps<G>(row: LrsRow<G>, n: nat, geomDict: map<Name, G>, pr: Probes<G>): (seq<Name>, bool) {
    if n == 0 then ([], false)
    else
      var prev := Steps(row, n - 1, geomDict, pr);
      if prev.1 then prev
      else
        var part := Part(row, n - 1, geomDict, pr);
        (prev.0 + part.0, part.1)
  }

  /** What one row of the cursor contributes to ReversedRoutes. */
  function RouteAppends<G>(row: LrsRow<G>, geomDict: map<Name, G>, pr: Probes<G>): seq<Name> {
    if Examined(row.rteNm) then Steps(row, pr.partCount(row.geom), geomDict, pr).0 else []
  }

  /** ReversedRoutes after the cursor over `rows`. */
  function ReversedRoutes<G>(rows: seq<LrsRow<G>>, geomDict: map<Name, G>, pr: Probes<G>): seq<Name> {
    if rows == [] then []
    else ReversedRoutes(rows[..|rows| - 1], geomDict, pr) + RouteAppends(rows[|rows| - 1], geomDict, pr)
  }

  /** Once a part has raised, later parts change nothing. */
  lemma {:induction false} StoppedStays<G>(row: LrsRow<G>, n: nat, m: nat, geomDict: map<Name, G>, pr: Probes<G>)
    requires n <= m && Steps(row, n, geomDict, pr).1
    ensures Steps(row, m, geomDict, pr) == Steps(row, n, geomDict, pr)
  {
    if m > n {
      StoppedStays(row, n, m - 1, geomDict, pr);
    }
  }

  /**
   * The loop of lines 20-51 for one route, appending to `acc`; an exception
   * leaves the loop with the appends made so far.
   */
  method ScanParts<G>(row: LrsRow<G>, geomDict: map<Name, G>, pr: Probes<G>, acc: seq<Name>) returns (reversedRoutes: seq<Name>)
    ensures reversedRoutes == acc + Steps(row, pr.partCount(row.geom), geomDict, pr).0
  {
    reversedRoutes := acc;
    var n := pr.partCount(row.geom);
    var i := 0;
    while i < n
      invariant 0 <= i <= n
      invariant !Steps(row, i, geomDict, pr).1
      invariant reversedRoutes == acc + Steps(row, i, geomDict, pr).0
    {
      if row.parentRteNm !in geomDict {
        StoppedStays(row, i + 1, n, geomDict, pr);
        return;
      }
      var masterGeom := geomDict[row.parentRteNm];
      var q := pr.query(row.geom, i, masterGeom);
      if q.None? {
        StoppedStays(row, i + 1, n, geomDict, pr);
        return;
      }
      var (distance, sideOfRoute) := q.value;
      if distance < 1.0 {
        i := i + 1;
        continue;
      }
      if !sideOfRoute {
        reversedRoutes := reversedRoutes + [Some(row.rteNm)];
        var masterSideOfRoute := pr.masterSide(row.geom, i, masterGeom);
        if masterSideOfRoute.None? {
          StoppedStays(row, i + 1, n, geomDict, pr);
          return;
        }
        if masterSideOfRoute.value == true {
          reversedRoutes := reversedRoutes + [row.parentRteNm];
        }
      }
      i := i + 1;
    }
  }

  /** Line 10: geomDict. */
  method BuildGeomDict<G>(rows: seq<LrsRow<G>>) returns (geomDict: map<Name, G>)
    ensures geomDict == DictFromPairs(GeomPairs(rows))
  {
    geomDict := map[];
    var i := 0;
    while i < |rows|
      invariant 0 <= i <= |rows|
      invariant geomDict == DictFromPairs(GeomPairs(rows[..i]))
    {
      assert rows[..i + 1][..i] == rows[..i];
      geomDict := geomDict[Some(rows[i].rteNm) := rows[i].geom];
      i := i + 1;
    }
    assert rows[..i] == rows;
  }

  /** Lines 10-54: the ReversedRoutes list the script saves. */
  method IdentifyReversedSRoutes<G>(rows: seq<LrsRow<G>>, pr: Probes<G>) returns (reversedRoutes: seq<Name>)
    ensures reversedRoutes == ReversedRoutes(rows, DictFromPairs(GeomPairs(rows)), pr)
  {
    var geomDict := BuildGeomDict(rows);
    reversedRoutes := [];
    var r := 0;
    while r < |rows|
      invariant 0 <= r <= |rows|
      invariant reversedRoutes == ReversedRoutes(rows[..r], geomDict, pr)
    {
      var row := rows[r];
      assert rows[..r + 1][..r] == rows[..r];
      if Examined(row.rteNm) {
        reversedRoutes := ScanParts(row, geomDict, pr, reversedRoutes);
      }
      r := r + 1;
    }
    assert rows[..r] == rows;
  }

  // ------------------------------------------------------------ properties

  /**
   * One part: one close to its prime route (distance below 1), or with the
   * prime route on its right, appends nothing; otherwise the route is
   * appended, followed by its parent exactly when the prime route's own
   * side test says True.
   */
  lemma PartMeaning<G>(row: LrsRow<G>, i: nat, geomDict: map<Name, G>, pr: Probes<G>)
    ensures var part := Part(row, i, geomDict, pr);
            && |part.0| <= 2
            && (|part.0| >= 1 <==>
                  row.parentRteNm in geomDict &&
                  var q := pr.query(row.geom, i, geomDict[row.parentRteNm]);
                  q.Some? && q.value.0 >= 1.0 && !q.value.1)
            && (|part.0| >= 1 ==> part.0[0] == Some(row.rteNm))
            && (|part.0| == 2 <==>
                  |part.0| >= 1 && pr.masterSide(row.geom, i, geomDict[row.parentRteNm]) == Some(true))
            && (|part.0| == 2 ==> part.0[1] == row.parentRteNm)
            && (row.parentRteNm !in geomDict ==> part == ([], true))
  {
  }

  /**
   * Appends are never undone: the appends of the first n parts begin the
   * appends of the first m, and once a part raises no later part adds
   * anything.
   */
  lemma {:induction false} AppendsKept<G>(row: LrsRow<G>, n: nat, m: nat, geomDict: map<Name, G>, pr: Probes<G>)
    requires n <= m
    ensures Steps(row, n, geomDict, pr).0 <= Steps(row, m, geomDict, pr).0
    ensures Steps(row, n, geomDict, pr).1 ==> Steps(row, m, geomDict, pr).0 == Steps(row, n, geomDict, pr).0
  {
    if m > n {
      AppendsKept(row, n, m - 1, geomDict, pr);
    }
    if Steps(row, n, geomDict, pr).1 {
      StoppedStays(row, n, m, geomDict, pr);
    }
  }

  /** A route whose prime route is missing from geomDict appends nothing. */
  lemma MissingParentAppendsNothing<G>(row: LrsRow<G>, geomDict: map<Name, G>, pr: Probes<G>)
    requires row.parentRteNm !in geomDict
    ensures RouteAppends(row, geomDict, pr) == []
  {
    var n := pr.partCount(row.geom);
    if n > 0 {
      StoppedStays(row, 1, n, geomDict, pr);
    }
  }

  /**
   * A route is appended once per reversed part: when every one of its n
   * parts is far enough and on the wrong side and the prime route's side
   * test says False, the route appears n times.
   */
  lemma {:induction false} OncePerReversedPart<G>(row: LrsRow<G>, n: nat, geomDict: map<Name, G>, pr: Probes<G>)
    requires row.parentRteNm in geomDict
    requires forall i :: 0 <= i < n ==>
               var q := pr.query(row.geom, i, geomDict[row.parentRteNm]);
               q.Some? && q.value.0 >= 1.0 && !q.value.1 &&
               pr.masterSide(row.geom, i, geomDict[row.parentRteNm]) == Some(false)
    ensures Steps(row, n, geomDict, pr) == (Copies(Some(row.rteNm), n), false)
  {
    if n > 0 {
      OncePerReversedPart(row, n - 1, geomDict, pr);
      var master := geomDict[row.parentRteNm];
      var q := pr.query(row.geom, n - 1, master);
      assert q.Some? && q.value.0 >= 1.0 && !q.value.1 && pr.masterSide(row.geom, n - 1, master) == Some(false);
      assert Part(row, n - 1, geomDict, pr) == ([Some(row.rteNm)], false);
    }
  }

  /** `n` copies of a name. */
  function Copies(x: Name, n: nat): (r: seq<Name>)
    ensures |r| == n && forall k :: 0 <= k < n ==> r[k] == x
  {
    if n == 0 then [] else Copies(x, n - 1) + [x]
  }

  /** Everything a route contributes is its own name or its parent's. */
  lemma {:induction false} StepsNames<G>(row: LrsRow<G>, n: nat, geomDict: map<Name, G>, pr: Probes<G>)
    ensures forall x :: x in Steps(row, n, geomDict, pr).0 ==> x == Some(row.rteNm) || x == row.parentRteNm
  {
    if n > 0 {
      StepsNames(row, n - 1, geomDict, pr);
    }
  }

  /**
   * Every entry of ReversedRoutes is the name, or the parent's name, of a
   * route that starts with S-VA and has NP at positions 7-8.
   */
  lemma {:induction false} OnlyExaminedRoutes<G>(rows: seq<LrsRow<G>>, geomDict: map<Name, G>, pr: Probes<G>)
    ensures forall x :: x in ReversedRoutes(rows, geomDict, pr) ==>
              exists i :: 0 <= i < |rows| && Examined(rows[i].rteNm) &&
                          (x == Some(rows[i].rteNm) || x == rows[i].parentRteNm)
  {
    if rows != [] {
      var pre := rows[..|rows| - 1];
      var last := |rows| - 1;
      OnlyExaminedRoutes(pre, geomDict, pr);
      StepsNames(rows[last], pr.partCount(rows[last].geom), geomDict, pr);
      forall x | x in ReversedRoutes(rows, geomDict, pr)
        ensures exists i :: 0 <= i < |rows| && Examined(rows[i].rteNm) &&
                            (x == Some(rows[i].rteNm) || x == rows[i].parentRteNm)
      {
        if x in ReversedRoutes(pre, geomDict, pr) {
          var i :| 0 <= i < |pre| && Examined(pre[i].rteNm) && (x == Some(pre[i].rteNm) || x == pre[i].parentRteNm);
          assert pre[i] == rows[i];
        } else {
          assert x in RouteAppends(rows[last], geomDict, pr);
        }
      }
    }
  }
}
