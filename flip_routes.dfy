/**
 * The direction corrector (flipRoutes.py): each event record is kept on its
 * route or moved to the route's opposite-direction twin, by an ordered table
 * of rules on the route name and the order of the two measures.
 */
module FlipRoutes {
  import opened Py
  import opened EventTable

  /** The one route the script itself lists as digitized against its measures. */
  const BuiltInReversed: string := "R-VA000SC06624NB"

  /**
   * LRS_RTE_ERRORS__REVERSED_MP: the built-in route followed by the list read
   * from LRS_RTE_ERRORS__REVERSED_MP.json (`None` when reading it raised).
   */
  function ReversedList(loaded: Option<seq<string>>): (r: seq<string>)
    ensures forall n :: n in r <==> n == BuiltInReversed || (loaded.Some? && n in loaded.value)
  {
    [BuiltInReversed] + (if loaded.Some? then loaded.value else [])
  }

  /** One row of the input event layer: id, RTE_NM, BEGIN_MSR, END_MSR and SHAPE@. */
  datatype InputEvent<G> = InputEvent(xdSegId: int, rteNm: Name, beginMp: Msr, endMp: Msr, shape: G)

  /** One row of the overlap LRS: RTE_NM, RTE_OPPOSITE_DIRECTION_RTE_NM and SHAPE@ (None when null). */
  datatype OverlapRoute<G> = OverlapRoute(rteNm: Name, oppRteNm: Name, shape: Option<G>)

  /**
   * Everything a record's correction depends on. `project` is the geometry
   * oracle behind get_mp_from_point: the raw M values of the input polyline's
   * first and last points located on a route geometry (on the closest part of
   * a multipart one), or None when any of those calls raises.
   */
  datatype FlipContext<!G> = FlipContext(
    oppRte: map<Name, Name>,
    lrsGeom: map<Name, Option<G>>,
    reversed: seq<string>,
    project: (G, G) -> Option<(real, real)>)

  // ------------------------------------------------------------- get_msr

  /**
   * get_msr: the begin and end measures of `inputPolyline` on route `rteNm`,
   * rounded to three decimals, or (None, None) when the route is missing
   * from the geometry dictionary, its geometry is null, or projecting raises.
   */
  function GetMsr<G>(inputPolyline: G, lrs: map<Name, Option<G>>, rteNm: Name,
                     project: (G, G) -> Option<(real, real)>): (r: (Msr, Msr))
    ensures r.0.None? <==> r.1.None?
    ensures r.0.None? <==> (rteNm !in lrs || lrs[rteNm].None? || project(inputPolyline, lrs[rteNm].value).None?)
    ensures r.0.Some? ==>
              var m := project(inputPolyline, lrs[rteNm].value).value;
              Abs(r.0.value - m.0) <= 0.0005 && Abs(r.1.value - m.1) <= 0.0005
  {
    if rteNm !in lrs then (None, None)
    else if lrs[rteNm].None? then (None, None)
    else
      match project(inputPolyline, lrs[rteNm].value)
      case None => (None, None)
      case Some(m) =>
        assert Pow10(3) == 1000;
        (Some(RoundTo(m.0, 3)), Some(RoundTo(m.1, 3)))
  }

  // ------------------------------------------------------------ rule table

  datatype Action = Keep | Flip | Raise

  /** Either measure is null, so `begin_mp < end_mp` raises TypeError. */
  predicate HasNull(b: Msr, e: Msr) {
    b.None? || e.None?
  }

  /** `begin_mp < end_mp or begin_mp == end_mp` */
  predicate Ascending(b: Msr, e: Msr) {
    b.Some? && e.Some? && (b.value < e.value || b.value == e.value)
  }

  /** `begin_mp > end_mp or begin_mp == end_mp` */
  predicate Descending(b: Msr, e: Msr) {
    b.Some? && e.Some? && (b.value > e.value || b.value == e.value)
  }

  /**
   * The rule table of run_flip_routes for one record, in the order the
   * script tests the rules. `Raise` stands for the exception that the
   * script's handler catches: a method call on a null name, or an order
   * comparison of a null measure.
   */
  function Decide(rteNm: Name, b: Msr, e: Msr, oppRte: map<Name, Name>, reversed: seq<string>): (r: Action)
    ensures r == Flip <==> rteNm in oppRte && rteNm.Some? && DecideNamed(rteNm.value, b, e, reversed) == Flip
  {
    if rteNm !in oppRte then Keep
    else if rteNm.None? then Raise
    else DecideNamed(rteNm.value, b, e, reversed)
  }

  /** The rules after the twin check, for a route whose name is not null. */
  function DecideNamed(s: string, b: Msr, e: Msr, reversed: seq<string>): Action {
    var sRoute := StartsWith(s, "S-VA");
    var rRoute := StartsWith(s, "R-VA");
    if sRoute && HasNull(b, e) then Raise
    else
      var pr := sRoute && Ascending(b, e) && Slice(s, 7, 9) == "PR";
      if pr && s !in reversed then Keep
      else
        var np := sRoute && Descending(b, e) && Slice(s, 7, 9) == "NP";
        if np && s !in reversed then Keep
        else
          var needsFlip := pr || np;
          if s in reversed && !needsFlip then Keep
          else if Contains(s, "RMP") then Keep
          else if rRoute && Contains(s, "PA") then Keep
          else if rRoute && HasNull(b, e) then Raise
          else if rRoute && Ascending(b, e) && (Contains(s, "NB") || Contains(s, "EB")) then Keep
          else if rRoute && Descending(b, e) && (Contains(s, "SB") || Contains(s, "WB")) then Keep
          else Flip
  }

  // -------------------------------------------------- what the rules mean

  /** An S-VA route with "PR" at [7:9] and begin <= end is kept, unless it is listed as reversed. */
  lemma PrAscendingKept(s: string, b: Msr, e: Msr, reversed: seq<string>)
    requires StartsWith(s, "S-VA") && Ascending(b, e) && Slice(s, 7, 9) == "PR"
    ensures s !in reversed ==> DecideNamed(s, b, e, reversed) == Keep
  {
  }

  /** An S-VA route with "NP" at [7:9] and begin >= end is kept, unless it is listed as reversed. */
  lemma NpDescendingKept(s: string, b: Msr, e: Msr, reversed: seq<string>)
    requires StartsWith(s, "S-VA") && Descending(b, e) && Slice(s, 7, 9) == "NP"
    ensures s !in reversed ==> DecideNamed(s, b, e, reversed) == Keep
  {
  }

  /**
   * A listed-as-reversed S-VA route that the PR or NP rule matched sets
   * needsFlip and falls through: only the ramp rule can still keep it, the
   * R-VA rules do not apply to it, so it is flipped otherwise.
   */
  lemma ReversedPrNpFallsThrough(s: string, b: Msr, e: Msr, reversed: seq<string>)
    requires StartsWith(s, "S-VA") && s in reversed
    requires (Ascending(b, e) && Slice(s, 7, 9) == "PR") || (Descending(b, e) && Slice(s, 7, 9) == "NP")
    ensures DecideNamed(s, b, e, reversed) == if Contains(s, "RMP") then Keep else Flip
  {
    StartsWithBoth(s, "S-VA", "R-VA");
  }

  /** A listed-as-reversed route that neither the PR nor the NP rule matched is kept. */
  lemma ReversedWithoutNeedKept(s: string, b: Msr, e: Msr, reversed: seq<string>)
    requires s in reversed && !(StartsWith(s, "S-VA") && HasNull(b, e))
    requires !(StartsWith(s, "S-VA") && Ascending(b, e) && Slice(s, 7, 9) == "PR")
    requires !(StartsWith(s, "S-VA") && Descending(b, e) && Slice(s, 7, 9) == "NP")
    ensures DecideNamed(s, b, e, reversed) == Keep
  {
  }

  /** A ramp is never flipped; it only errors when it is an S-VA route with a null measure. */
  lemma RampNeverFlipped(s: string, b: Msr, e: Msr, reversed: seq<string>)
    requires Contains(s, "RMP")
    ensures DecideNamed(s, b, e, reversed) == if StartsWith(s, "S-VA") && HasNull(b, e) then Raise else Keep
  {
  }

  /** An R-VA route containing "PA" is always kept, whatever its measures. */
  lemma RvaPaKept(s: string, b: Msr, e: Msr, reversed: seq<string>)
    requires StartsWith(s, "R-VA") && Contains(s, "PA")
    ensures DecideNamed(s, b, e, reversed) == Keep
  {
    StartsWithBoth(s, "S-VA", "R-VA");
  }

  /**
   * An R-VA route is kept when it is NB or EB with begin <= end, or SB or WB
   * with begin >= end; with equal measures any of the four keeps it.
   */
  lemma RvaDirectionKept(s: string, b: Msr, e: Msr, reversed: seq<string>)
    requires StartsWith(s, "R-VA")
    requires (Ascending(b, e) && (Contains(s, "NB") || Contains(s, "EB"))) ||
             (Descending(b, e) && (Contains(s, "SB") || Contains(s, "WB"))) ||
             (b.Some? && b == e && (Contains(s, "NB") || Contains(s, "EB") || Contains(s, "SB") || Contains(s, "WB")))
    ensures DecideNamed(s, b, e, reversed) == Keep
  {
    StartsWithBoth(s, "S-VA", "R-VA");
  }

  /**
   * The rule table raises exactly for an S-VA route with a null measure, and
   * for an R-VA route with a null measure that no earlier rule kept.
   */
  lemma RaiseExactly(s: string, b: Msr, e: Msr, reversed: seq<string>)
    ensures DecideNamed(s, b, e, reversed) == Raise <==>
              HasNull(b, e) &&
              (StartsWith(s, "S-VA") ||
               (StartsWith(s, "R-VA") && s !in reversed && !Contains(s, "RMP") && !Contains(s, "PA")))
  {
    StartsWithBoth(s, "S-VA", "R-VA");
  }

  /**
   * The rule table flips a record exactly when no rule keeps it and none
   * raises: an S-VA route has both measures, no name is a ramp, a listed
   * route is flipped only when it matched the PR or NP rule and an unlisted
   * one only when it matched neither, and an R-VA route is not PA, has both
   * measures and runs against the direction its name gives.
   */
  lemma FlippedExactly(s: string, b: Msr, e: Msr, reversed: seq<string>)
    ensures DecideNamed(s, b, e, reversed) == Flip <==>
              var sRoute := StartsWith(s, "S-VA");
              var prRule := sRoute && Ascending(b, e) && Slice(s, 7, 9) == "PR";
              var npRule := sRoute && Descending(b, e) && Slice(s, 7, 9) == "NP";
              !(sRoute && HasNull(b, e)) && !Contains(s, "RMP") &&
              (if s in reversed then prRule || npRule else !prRule && !npRule) &&
              (StartsWith(s, "R-VA") ==>
                 !Contains(s, "PA") && !HasNull(b, e) &&
                 !(Ascending(b, e) && (Contains(s, "NB") || Contains(s, "EB"))) &&
                 !(Descending(b, e) && (Contains(s, "SB") || Contains(s, "WB"))))
  {
    StartsWithBoth(s, "S-VA", "R-VA");
  }

  /** An unlisted S-VA PR route that is not a ramp and whose begin exceeds its end is flipped. */
  lemma BackwardsPrFlipped(s: string, b: real, e: real, reversed: seq<string>)
    requires StartsWith(s, "S-VA") && Slice(s, 7, 9) == "PR"
    requires s !in reversed && !Contains(s, "RMP") && b > e
    ensures DecideNamed(s, Some(b), Some(e), reversed) == Flip
  {
    FlippedExactly(s, Some(b), Some(e), reversed);
  }

  /** An unlisted S-VA NP route that is not a ramp and whose begin is below its end is flipped. */
  lemma BackwardsNpFlipped(s: string, b: real, e: real, reversed: seq<string>)
    requires StartsWith(s, "S-VA") && Slice(s, 7, 9) == "NP"
    requires s !in reversed && !Contains(s, "RMP") && b < e
    ensures DecideNamed(s, Some(b), Some(e), reversed) == Flip
  {
    FlippedExactly(s, Some(b), Some(e), reversed);
  }

  /**
   * An unlisted R-VA route named NB or EB, and neither SB, WB, PA nor a
   * ramp, is flipped when its begin exceeds its end.
   */
  lemma BackwardsRvaFlipped(s: string, b: real, e: real, reversed: seq<string>)
    requires StartsWith(s, "R-VA") && (Contains(s, "NB") || Contains(s, "EB"))
    requires !Contains(s, "SB") && !Contains(s, "WB") && !Contains(s, "PA") && !Contains(s, "RMP")
    requires s !in reversed && b > e
    ensures DecideNamed(s, Some(b), Some(e), reversed) == Flip
  {
    FlippedExactly(s, Some(b), Some(e), reversed);
  }

  /** A name that is neither S-VA nor R-VA, not listed and not a ramp, is flipped, even with null measures. */
  lemma OtherRoutesFlipped(s: string, b: Msr, e: Msr, reversed: seq<string>)
    requires !StartsWith(s, "S-VA") && !StartsWith(s, "R-VA")
    requires s !in reversed && !Contains(s, "RMP")
    ensures DecideNamed(s, b, e, reversed) == Flip
  {
  }

  /** A route without a twin is kept; a null route name with a twin entry errors. */
  lemma DecideTwinCheck(rteNm: Name, b: Msr, e: Msr, oppRte: map<Name, Name>, reversed: seq<string>)
    ensures rteNm !in oppRte ==> Decide(rteNm, b, e, oppRte, reversed) == Keep
    ensures rteNm in oppRte && rteNm.None? ==> Decide(rteNm, b, e, oppRte, reversed) == Raise
  {
  }

  // ----------------------------------------------------- one record, many

  datatype Outcome = NotFlipped | Flipped | Errored

  /** The record as add_to_event_table receives it when it is not flipped. */
  function AsEvent<G>(rec: InputEvent<G>): Event {
    Event(rec.xdSegId, rec.rteNm, rec.beginMp, rec.endMp)
  }

  /** What the loop body of run_flip_routes emits for one record, and which counter it bumps. */
  function Correct<G>(rec: InputEvent<G>, ctx: FlipContext<G>): (r: (Event, Outcome))
    ensures r.0.xdSegId == rec.xdSegId
    ensures r.1 != Flipped ==> r.0 == AsEvent(rec)
    ensures r.1 == Flipped ==>
              rec.rteNm in ctx.oppRte && r.0.rteNm == ctx.oppRte[rec.rteNm] &&
              (r.0.beginMsr, r.0.endMsr) == GetMsr(rec.shape, ctx.lrsGeom, r.0.rteNm, ctx.project)
  {
    match Decide(rec.rteNm, rec.beginMp, rec.endMp, ctx.oppRte, ctx.reversed)
    case Keep => (AsEvent(rec), NotFlipped)
    case Raise => (AsEvent(rec), Errored)
    case Flip =>
      var newRteNm := ctx.oppRte[rec.rteNm];
      var msr := GetMsr(rec.shape, ctx.lrsGeom, newRteNm, ctx.project);
      (Event(rec.xdSegId, newRteNm, msr.0, msr.1), Flipped)
  }

  /** A record whose route has no twin in oppRteDict is emitted unchanged and counted as not flipped. */
  lemma NoTwinEmittedUnchanged<G>(rec: InputEvent<G>, ctx: FlipContext<G>)
    requires rec.rteNm !in ctx.oppRte
    ensures Correct(rec, ctx) == (AsEvent(rec), NotFlipped)
  {
  }

  /** A record on which the rules raise is emitted unchanged and counted as an error. */
  lemma RaiseEmitsOriginal<G>(rec: InputEvent<G>, ctx: FlipContext<G>)
    requires Decide(rec.rteNm, rec.beginMp, rec.endMp, ctx.oppRte, ctx.reversed) == Raise
    ensures Correct(rec, ctx) == (AsEvent(rec), Errored)
  {
  }

  /**
   * A flip onto a twin that has no geometry in LRSGeomDict still counts as
   * flipped, and emits the twin with null measures.
   */
  lemma FlipWithoutGeometry<G>(rec: InputEvent<G>, ctx: FlipContext<G>)
    requires Decide(rec.rteNm, rec.beginMp, rec.endMp, ctx.oppRte, ctx.reversed) == Flip
    requires ctx.oppRte[rec.rteNm] !in ctx.lrsGeom || ctx.lrsGeom[ctx.oppRte[rec.rteNm]].None?
    ensures Correct(rec, ctx) == (Event(rec.xdSegId, ctx.oppRte[rec.rteNm], None, None), Flipped)
  {
  }

  /** The events appended to outputEvents for the records in order: one per record. */
  function Outputs<G>(recs: seq<InputEvent<G>>, ctx: FlipContext<G>): (r: seq<Event>)
    ensures |r| == |recs|
    ensures forall i :: 0 <= i < |recs| ==> r[i] == Correct(recs[i], ctx).0
  {
    if recs == [] then []
    else Outputs(recs[..|recs| - 1], ctx) + [Correct(recs[|recs| - 1], ctx).0]
  }

  /** How often a counter is bumped for the records. */
  function Count<G>(recs: seq<InputEvent<G>>, ctx: FlipContext<G>, o: Outcome): nat {
    if recs == [] then 0
    else Count(recs[..|recs| - 1], ctx, o) + (if Correct(recs[|recs| - 1], ctx).1 == o then 1 else 0)
  }

  /** The ids appended to errorList for the records, in order. */
  function ErrorIds<G>(recs: seq<InputEvent<G>>, ctx: FlipContext<G>): seq<int> {
    if recs == [] then []
    else
      var last := recs[|recs| - 1];
      ErrorIds(recs[..|recs| - 1], ctx) + (if Correct(last, ctx).1 == Errored then [last.xdSegId] else [])
  }

  /** Each record bumps exactly one of the three counters. */
  lemma {:induction false} CountsPartition<G>(recs: seq<InputEvent<G>>, ctx: FlipContext<G>)
    ensures Count(recs, ctx, NotFlipped) + Count(recs, ctx, Flipped) + Count(recs, ctx, Errored) == |recs|
  {
    if recs != [] {
      CountsPartition(recs[..|recs| - 1], ctx);
    }
  }

  /** Some record with this id made the rule table raise. */
  ghost predicate ErroredId<G>(recs: seq<InputEvent<G>>, ctx: FlipContext<G>, id: int) {
    exists i :: 0 <= i < |recs| && recs[i].xdSegId == id && Correct(recs[i], ctx).1 == Errored
  }

  /** errorList grows by one id per errored record, and only by ids of errored records. */
  lemma {:induction false} ErrorIdsAreErrored<G>(recs: seq<InputEvent<G>>, ctx: FlipContext<G>)
    ensures |ErrorIds(recs, ctx)| == Count(recs, ctx, Errored)
    ensures forall k :: 0 <= k < |ErrorIds(recs, ctx)| ==> ErroredId(recs, ctx, ErrorIds(recs, ctx)[k])
  {
    if recs != [] {
      var prefix := recs[..|recs| - 1];
      var last := recs[|recs| - 1];
      ErrorIdsAreErrored(prefix, ctx);
      var pre := ErrorIds(prefix, ctx);
      var ids := ErrorIds(recs, ctx);
      assert ids == pre + (if Correct(last, ctx).1 == Errored then [last.xdSegId] else []);
      forall k | 0 <= k < |ids| ensures ErroredId(recs, ctx, ids[k]) {
        if k < |pre| {
          assert ids[k] == pre[k];
          var i :| 0 <= i < |prefix| && prefix[i].xdSegId == pre[k] && Correct(prefix[i], ctx).1 == Errored;
          assert recs[i] == prefix[i];
        } else {
          var j := |recs| - 1;
          assert recs[j].xdSegId == ids[k] && Correct(recs[j], ctx).1 == Errored;
        }
      }
    }
  }

  /** The four run-level results of the records up to i + 1, from those up to i. */
  lemma StepOne<G>(recs: seq<InputEvent<G>>, i: nat, ctx: FlipContext<G>)
    requires i < |recs|
    ensures Outputs(recs[..i + 1], ctx) == Outputs(recs[..i], ctx) + [Correct(recs[i], ctx).0]
    ensures Count(recs[..i + 1], ctx, NotFlipped) == Count(recs[..i], ctx, NotFlipped) + (if Correct(recs[i], ctx).1 == NotFlipped then 1 else 0)
    ensures Count(recs[..i + 1], ctx, Flipped) == Count(recs[..i], ctx, Flipped) + (if Correct(recs[i], ctx).1 == Flipped then 1 else 0)
    ensures Count(recs[..i + 1], ctx, Errored) == Count(recs[..i], ctx, Errored) + (if Correct(recs[i], ctx).1 == Errored then 1 else 0)
    ensures ErrorIds(recs[..i + 1], ctx) ==
              ErrorIds(recs[..i], ctx) + (if Correct(recs[i], ctx).1 == Errored then [recs[i].xdSegId] else [])
  {
    assert recs[..i + 1][..i] == recs[..i];
    assert recs[..i + 1][i] == recs[i];
  }

  // ------------------------------------------------------ the dictionaries

  /** inputRoutes: the set of RTE_NM values of the input event layer. */
  function InputRoutes<G>(recs: seq<InputEvent<G>>): set<Name> {
    set i | 0 <= i < |recs| :: recs[i].rteNm
  }

  /** The (route, opposite route) assignments the loop of lines 139-141 performs, in order. */
  function OppPairs<G>(inputRoutes: set<Name>, overlap: seq<OverlapRoute<G>>): seq<(Name, Name)> {
    if overlap == [] then []
    else
      var last := overlap[|overlap| - 1];
      OppPairs(inputRoutes, overlap[..|overlap| - 1]) +
        (if last.rteNm in inputRoutes then [(last.rteNm, last.oppRteNm)] else [])
  }

  function OppRteDict<G>(inputRoutes: set<Name>, overlap: seq<OverlapRoute<G>>): map<Name, Name> {
    DictFromPairs(OppPairs(inputRoutes, overlap))
  }

  /** Each assignment is for an overlap route in the input layer. */
  lemma {:induction false} OppPairsSound<G>(inputRoutes: set<Name>, overlap: seq<OverlapRoute<G>>, j: nat)
    requires j < |OppPairs(inputRoutes, overlap)|
    ensures OppPairs(inputRoutes, overlap)[j].0 in inputRoutes
    ensures exists i :: 0 <= i < |overlap| && overlap[i].rteNm == OppPairs(inputRoutes, overlap)[j].0
  {
    var prefix := overlap[..|overlap| - 1];
    var pre := OppPairs(inputRoutes, prefix);
    if j < |pre| {
      OppPairsSound(inputRoutes, prefix, j);
      var i :| 0 <= i < |prefix| && prefix[i].rteNm == pre[j].0;
      assert overlap[i] == prefix[i];
    } else {
      assert overlap[|overlap| - 1].rteNm == OppPairs(inputRoutes, overlap)[j].0;
    }
  }

  /** Every overlap route in the input layer is assigned. */
  lemma {:induction false} OppPairsComplete<G>(inputRoutes: set<Name>, overlap: seq<OverlapRoute<G>>, i: nat)
    requires i < |overlap| && overlap[i].rteNm in inputRoutes
    ensures exists j :: 0 <= j < |OppPairs(inputRoutes, overlap)| && OppPairs(inputRoutes, overlap)[j].0 == overlap[i].rteNm
  {
    var prefix := overlap[..|overlap| - 1];
    var pairs := OppPairs(inputRoutes, overlap);
    var pre := OppPairs(inputRoutes, prefix);
    if i < |prefix| {
      assert prefix[i] == overlap[i];
      OppPairsComplete(inputRoutes, prefix, i);
      var j :| 0 <= j < |pre| && pre[j].0 == overlap[i].rteNm;
      assert pairs[j] == pre[j];
    } else {
      assert pairs[|pairs| - 1].0 == overlap[i].rteNm;
    }
  }

  /** The keys of oppRteDict are exactly the overlap routes that also occur in the input layer. */
  lemma OppRteDictKeys<G>(inputRoutes: set<Name>, overlap: seq<OverlapRoute<G>>)
    ensures forall n :: n in OppRteDict(inputRoutes, overlap) <==>
              n in inputRoutes && exists i :: 0 <= i < |overlap| && overlap[i].rteNm == n
  {
    var pairs := OppPairs(inputRoutes, overlap);
    forall n ensures n in OppRteDict(inputRoutes, overlap) <==>
               n in inputRoutes && exists i :: 0 <= i < |overlap| && overlap[i].rteNm == n
    {
      if n in OppRteDict(inputRoutes, overlap) {
        var j :| 0 <= j < |pairs| && pairs[j].0 == n;
        OppPairsSound(inputRoutes, overlap, j);
      }
      if n in inputRoutes && exists i :: 0 <= i < |overlap| && overlap[i].rteNm == n {
        var i :| 0 <= i < |overlap| && overlap[i].rteNm == n;
        OppPairsComplete(inputRoutes, overlap, i);
        var j :| 0 <= j < |pairs| && pairs[j].0 == n;
        assert n in (set k | 0 <= k < |pairs| :: pairs[k].0);
      }
    }
  }

  /** LRSGeomDict: RTE_NM to SHAPE@ over the overlap LRS, the last row winning. */
  function LrsGeomPairs<G>(overlap: seq<OverlapRoute<G>>): (r: seq<(Name, Option<G>)>)
    ensures |r| == |overlap|
    ensures forall i :: 0 <= i < |overlap| ==> r[i] == (overlap[i].rteNm, overlap[i].shape)
  {
    seq(|overlap|, i requires 0 <= i < |overlap| => (overlap[i].rteNm, overlap[i].shape))
  }

  function ContextFor<G>(recs: seq<InputEvent<G>>, overlap: seq<OverlapRoute<G>>, reversed: seq<string>,
                         project: (G, G) -> Option<(real, real)>): FlipContext<G> {
    FlipContext(OppRteDict(InputRoutes(recs), overlap), DictFromPairs(LrsGeomPairs(overlap)), reversed, project)
  }

  /** The loop of lines 137-141 that fills oppRteDict. */
  method BuildOppRteDict<G>(inputRoutes: set<Name>, overlap: seq<OverlapRoute<G>>) returns (oppRteDict: map<Name, Name>)
    ensures oppRteDict == OppRteDict(inputRoutes, overlap)
    ensures oppRteDict.Keys <= inputRoutes
  {
    oppRteDict := map[];
    var i := 0;
    while i < |overlap|
      invariant 0 <= i <= |overlap|
      invariant oppRteDict == DictFromPairs(OppPairs(inputRoutes, overlap[..i]))
    {
      assert overlap[..i + 1][..i] == overlap[..i];
      assert overlap[..i + 1][i] == overlap[i];
      var row := overlap[i];
      ghost var pairs := OppPairs(inputRoutes, overlap[..i + 1]);
      if row.rteNm in inputRoutes {
        assert pairs == OppPairs(inputRoutes, overlap[..i]) + [(row.rteNm, row.oppRteNm)];
        assert pairs[..|pairs| - 1] == OppPairs(inputRoutes, overlap[..i]);
        oppRteDict := oppRteDict[row.rteNm := row.oppRteNm];
      } else {
        assert pairs == OppPairs(inputRoutes, overlap[..i]);
      }
      i := i + 1;
    }
    assert overlap[..i] == overlap;
    OppRteDictKeys(inputRoutes, overlap);
  }

  /** The dict comprehension of line 148 that fills LRSGeomDict. */
  method BuildLrsGeomDict<G>(overlap: seq<OverlapRoute<G>>) returns (lrsGeomDict: map<Name, Option<G>>)
    ensures lrsGeomDict == DictFromPairs(LrsGeomPairs(overlap))
  {
    lrsGeomDict := map[];
    var i := 0;
    while i < |overlap|
      invariant 0 <= i <= |overlap|
      invariant lrsGeomDict == DictFromPairs(LrsGeomPairs(overlap[..i]))
    {
      ghost var pairs := LrsGeomPairs(overlap[..i + 1]);
      assert pairs[..|pairs| - 1] == LrsGeomPairs(overlap[..i]);
      lrsGeomDict := lrsGeomDict[overlap[i].rteNm := overlap[i].shape];
      i := i + 1;
    }
    assert overlap[..i] == overlap;
  }

  // ----------------------------------------------------------- the script

  /**
   * The module-level state of flipRoutes.py. outputEvents is reset by every
   * run; the three counters and errorList are not, so they accumulate over
   * the runs of one process (the batch driver runs one per batch).
   */
  class FlipRun {
    var outputEvents: seq<Event>
    var countFlipped: nat
    var countNotFlipped: nat
    var countError: nat
    var errorList: seq<int>

    /** Importing the module. */
    constructor ()
      ensures outputEvents == [] && errorList == []
      ensures countFlipped == 0 && countNotFlipped == 0 && countError == 0
    {
      outputEvents := [];
      countFlipped, countNotFlipped, countError := 0, 0, 0;
      errorList := [];
    }

    method AddToEventTable(id: int, rteNm: Name, beginMp: Msr, endMp: Msr)
      modifies this`outputEvents
      ensures outputEvents == old(outputEvents) + [Event(id, rteNm, beginMp, endMp)]
    {
      outputEvents := outputEvents + [Event(id, rteNm, beginMp, endMp)];
    }

    /** The body of the cursor loop of run_flip_routes for one record. */
    method ProcessRecord<G>(rec: InputEvent<G>, ctx: FlipContext<G>)
      modifies this
      ensures outputEvents == old(outputEvents) + [Correct(rec, ctx).0]
      ensures countNotFlipped == old(countNotFlipped) + (if Correct(rec, ctx).1 == NotFlipped then 1 else 0)
      ensures countFlipped == old(countFlipped) + (if Correct(rec, ctx).1 == Flipped then 1 else 0)
      ensures countError == old(countError) + (if Correct(rec, ctx).1 == Errored then 1 else 0)
      ensures errorList == old(errorList) + (if Correct(rec, ctx).1 == Errored then [rec.xdSegId] else [])
    {
      match Decide(rec.rteNm, rec.beginMp, rec.endMp, ctx.oppRte, ctx.reversed) {
        case Keep =>
          AddToEventTable(rec.xdSegId, rec.rteNm, rec.beginMp, rec.endMp);
          countNotFlipped := countNotFlipped + 1;
        case Flip =>
          var newRteNm := ctx.oppRte[rec.rteNm];
          var msr := GetMsr(rec.shape, ctx.lrsGeom, newRteNm, ctx.project);
          AddToEventTable(rec.xdSegId, newRteNm, msr.0, msr.1);
          countFlipped := countFlipped + 1;
        case Raise =>
          AddToEventTable(rec.xdSegId, rec.rteNm, rec.beginMp, rec.endMp);
          countError := countError + 1;
          errorList := errorList + [rec.xdSegId];
      }
    }

    /** The cursor loop of run_flip_routes, appending to whatever the fields hold. */
    method ProcessAll<G>(inputEvents: seq<InputEvent<G>>, ctx: FlipContext<G>)
      modifies this
      ensures outputEvents == old(outputEvents) + Outputs(inputEvents, ctx)
      ensures countNotFlipped == old(countNotFlipped) + Count(inputEvents, ctx, NotFlipped)
      ensures countFlipped == old(countFlipped) + Count(inputEvents, ctx, Flipped)
      ensures countError == old(countError) + Count(inputEvents, ctx, Errored)
      ensures errorList == old(errorList) + ErrorIds(inputEvents, ctx)
    {
      var i := 0;
      while i < |inputEvents|
        invariant 0 <= i <= |inputEvents|
        invariant outputEvents == old(outputEvents) + Outputs(inputEvents[..i], ctx)
        invariant countNotFlipped == old(countNotFlipped) + Count(inputEvents[..i], ctx, NotFlipped)
        invariant countFlipped == old(countFlipped) + Count(inputEvents[..i], ctx, Flipped)
        invariant countError == old(countError) + Count(inputEvents[..i], ctx, Errored)
        invariant errorList == old(errorList) + ErrorIds(inputEvents[..i], ctx)
      {
        StepOne(inputEvents, i, ctx);
        ProcessRecord(inputEvents[i], ctx);
        i := i + 1;
      }
      assert inputEvents[..i] == inputEvents;
    }

    /**
     * run_flip_routes: one output event per input record, each counted once.
     * The geometry dictionaries are read from the overlap LRS.
     */
    method RunFlipRoutes<G>(inputEvents: seq<InputEvent<G>>, overlap: seq<OverlapRoute<G>>,
                           reversed: seq<string>, project: (G, G) -> Option<(real, real)>)
      modifies this
      ensures outputEvents == Outputs(inputEvents, ContextFor(inputEvents, overlap, reversed, project))
      ensures countNotFlipped == old(countNotFlipped) + Count(inputEvents, ContextFor(inputEvents, overlap, reversed, project), NotFlipped)
      ensures countFlipped == old(countFlipped) + Count(inputEvents, ContextFor(inputEvents, overlap, reversed, project), Flipped)
      ensures countError == old(countError) + Count(inputEvents, ContextFor(inputEvents, overlap, reversed, project), Errored)
      ensures errorList == old(errorList) + ErrorIds(inputEvents, ContextFor(inputEvents, overlap, reversed, project))
      ensures countNotFlipped + countFlipped + countError ==
                old(countNotFlipped) + old(countFlipped) + old(countError) + |inputEvents|
    {
      outputEvents := [];
      var inputRoutes := set i | 0 <= i < |inputEvents| :: inputEvents[i].rteNm;
      var oppRteDict := BuildOppRteDict(inputRoutes, overlap);
      var lrsGeomDict := BuildLrsGeomDict(overlap);
      var ctx := FlipContext(oppRteDict, lrsGeomDict, reversed, project);
      assert ctx == ContextFor(inputEvents, overlap, reversed, project);
      ProcessAll(inputEvents, ctx);
      CountsPartition(inputEvents, ctx);
    }
  }
}
