/**
 * compare_lengths (lengthCompare.py): each conflation row gets its own
 * geodesic length, the total length of all conflation rows of its XD
 * segment, the XD segment's own length and the absolute difference of the
 * two.
 */
module LengthCompare {
  import opened Py

  /** A row of the XD layer: XDSegID and SHAPE@, neither of them null. */
  datatype XdRow<G> = XdRow(xdSegId: int, shape: G)

  /** A row of the conflation layer with the four fields the script writes. */
  datatype ConflationRow<G> = ConflationRow(
    xdSegId: int,
    shape: G,
    conflationLen: Msr,
    conflationTotalLen: Msr,
    xdLen: Msr,
    lenDiff: Msr)

  /**
   * getLength('GEODESIC', 'MILES') on an XD shape, and on a conflation
   * shape, where None stands for the call raising (a null shape).
   */
  datatype Lengths<!G> = Lengths(xdMiles: G -> real, conflationMiles: G -> Option<real>)

  /** The (XDSegID, length) pairs of lines 5-8, in cursor order. */
  function XdLenPairs<G>(xd: seq<XdRow<G>>, len: Lengths<G>): seq<(int, real)> {
    if xd == [] then []
    else XdLenPairs(xd[..|xd| - 1], len) + [(xd[|xd| - 1].xdSegId, len.xdMiles(xd[|xd| - 1].shape))]
  }

  function XdIds<G>(xd: seq<XdRow<G>>): set<int> {
    set i | 0 <= i < |xd| :: xd[i].xdSegId
  }

  lemma {:induction false} XdLenKeys<G>(xd: seq<XdRow<G>>, len: Lengths<G>)
    ensures |XdLenPairs(xd, len)| == |xd|
    ensures forall i :: 0 <= i < |xd| ==> XdLenPairs(xd, len)[i] == (xd[i].xdSegId, len.xdMiles(xd[i].shape))
    ensures DictFromPairs(XdLenPairs(xd, len)).Keys == XdIds(xd)
  {
    if xd != [] {
      XdLenKeys(xd[..|xd| - 1], len);
    }
    var pairs := XdLenPairs(xd, len);
    assert (set i | 0 <= i < |pairs| :: pairs[i].0) == XdIds(xd) by {
      forall i | 0 <= i < |xd| ensures xd[i].xdSegId in (set i | 0 <= i < |pairs| :: pairs[i].0) {
        assert pairs[i].0 == xd[i].xdSegId;
      }
    }
  }

  /** Lines 5-8: XDLenDict, where a later row with the same id overwrites an earlier one. */
  method BuildXdLenDict<G>(xd: seq<XdRow<G>>, len: Lengths<G>) returns (xdLenDict: map<int, real>)
    ensures xdLenDict == DictFromPairs(XdLenPairs(xd, len))
  {
    xdLenDict := map[];
    var i := 0;
    while i < |xd|
      invariant 0 <= i <= |xd|
      invariant xdLenDict == DictFromPairs(XdLenPairs(xd[..i], len))
    {
      assert xd[..i + 1][..i] == xd[..i];
      xdLenDict := xdLenDict[xd[i].xdSegId := len.xdMiles(xd[i].shape)];
      i := i + 1;
    }
    assert xd[..i] == xd;
  }

  /** Lines 29-34: the row after its length is computed; a row whose length raises is left as it was. */
  function Measured<G>(row: ConflationRow<G>, len: Lengths<G>): ConflationRow<G> {
    match len.conflationMiles(row.shape)
    case Some(m) => row.(conflationLen := Some(m))
    case None => row
  }

  /** The non-null ConflationLen values of the rows with XDSegID `id`, in cursor order. */
  function LensFor<G>(rows: seq<ConflationRow<G>>, id: int): seq<real> {
    if rows == [] then []
    else
      var last := rows[|rows| - 1];
      LensFor(rows[..|rows| - 1], id) + (if last.xdSegId == id && last.conflationLen.Some? then [last.conflationLen.value] else [])
  }

  /** The rows of the layer as they stand after lines 27-34. */
  function MeasuredAll<G>(rows: seq<ConflationRow<G>>, len: Lengths<G>): seq<ConflationRow<G>> {
    seq(|rows|, i requires 0 <= i < |rows| => Measured(rows[i], len))
  }

  /** Lines 43-62 applied to one measured row, given the totals and XDLenDict. */
  function Finished<G>(row: ConflationRow<G>, totals: map<int, seq<real>>, xdLenDict: map<int, real>): ConflationRow<G>
    requires row.xdSegId in totals && row.xdSegId in xdLenDict
  {
    var withTotal := row.(conflationTotalLen := Some(Sum(totals[row.xdSegId])));
    var withXdLen := withTotal.(xdLen := Some(xdLenDict[row.xdSegId]));
    withXdLen.(lenDiff := Some(Abs(withXdLen.conflationTotalLen.value - withXdLen.xdLen.value)))
  }

  /** XDTotalDicts of lines 37-41 over the measured rows. */
  function Totals<G>(xd: seq<XdRow<G>>, measured: seq<ConflationRow<G>>): map<int, seq<real>> {
    map id | id in XdIds(xd) :: LensFor(measured, id)
  }

  /** The conflation layer as compare_lengths leaves it. */
  function Compared<G>(rows: seq<ConflationRow<G>>, xd: seq<XdRow<G>>, len: Lengths<G>): seq<ConflationRow<G>>
    requires forall i :: 0 <= i < |rows| ==> rows[i].xdSegId in XdIds(xd)
  {
    var measured := MeasuredAll(rows, len);
    var xdLenDict := DictFromPairs(XdLenPairs(xd, len));
    XdLenKeys(xd, len);
    FinishedAll(measured, Totals(xd, measured), xdLenDict)
  }

  /** Lines 43-62 over every measured row. */
  function FinishedAll<G>(measured: seq<ConflationRow<G>>, totals: map<int, seq<real>>, xdLenDict: map<int, real>)
    : seq<ConflationRow<G>>
    requires forall i :: 0 <= i < |measured| ==> measured[i].xdSegId in totals && measured[i].xdSegId in xdLenDict
  {
    seq(|measured|, i requires 0 <= i < |measured| => Finished(measured[i], totals, xdLenDict))
  }

  /** Lines 43-46 over every row: ConflationTotalLen becomes the sum of the id's list. */
  function WithTotals<G>(rows: seq<ConflationRow<G>>, totals: map<int, seq<real>>): seq<ConflationRow<G>>
    requires forall i :: 0 <= i < |rows| ==> rows[i].xdSegId in totals
  {
    seq(|rows|, i requires 0 <= i < |rows| => rows[i].(conflationTotalLen := Some(Sum(totals[rows[i].xdSegId]))))
  }

  /** Lines 51-54 over every row: XDLen becomes the id's XD length. */
  function WithXdLens<G>(rows: seq<ConflationRow<G>>, xdLenDict: map<int, real>): seq<ConflationRow<G>>
    requires forall i :: 0 <= i < |rows| ==> rows[i].xdSegId in xdLenDict
  {
    seq(|rows|, i requires 0 <= i < |rows| => rows[i].(xdLen := Some(xdLenDict[rows[i].xdSegId])))
  }

  /** Lines 59-62 over every row: LenDiff becomes abs(ConflationTotalLen - XDLen). */
  function WithLenDiffs<G>(rows: seq<ConflationRow<G>>): seq<ConflationRow<G>>
    requires forall i :: 0 <= i < |rows| ==> rows[i].conflationTotalLen.Some? && rows[i].xdLen.Some?
  {
    seq(|rows|, i requires 0 <= i < |rows| =>
      rows[i].(lenDiff := Some(Abs(rows[i].conflationTotalLen.value - rows[i].xdLen.value))))
  }

  /** The three update loops together finish every measured row. */
  lemma StagesCompose<G>(measured: seq<ConflationRow<G>>, totals: map<int, seq<real>>, xdLenDict: map<int, real>)
    requires forall i :: 0 <= i < |measured| ==> measured[i].xdSegId in totals && measured[i].xdSegId in xdLenDict
    ensures var withTotals := WithTotals(measured, totals);
            var withXdLens := WithXdLens(withTotals, xdLenDict);
            WithLenDiffs(withXdLens) == FinishedAll(measured, totals, xdLenDict)
  {
    var withTotals := WithTotals(measured, totals);
    var withXdLens := WithXdLens(withTotals, xdLenDict);
    forall i | 0 <= i < |measured|
      ensures WithLenDiffs(withXdLens)[i] == Finished(measured[i], totals, xdLenDict)
    {
      assert withXdLens[i] == withTotals[i].(xdLen := Some(xdLenDict[measured[i].xdSegId]));
    }
  }

  /** Lines 37-41: XDTotalDicts lists, for every XD id, the non-null lengths of its conflation rows. */
  method BuildTotals<G>(xd: seq<XdRow<G>>, measured: seq<ConflationRow<G>>) returns (totals: map<int, seq<real>>)
    requires forall i :: 0 <= i < |measured| ==> measured[i].xdSegId in XdIds(xd)
    ensures totals == Totals(xd, measured)
  {
    totals := map id | id in XdIds(xd) :: [];
    var i := 0;
    while i < |measured|
      invariant 0 <= i <= |measured|
      invariant totals.Keys == XdIds(xd)
      invariant forall id :: id in totals ==> totals[id] == LensFor(measured[..i], id)
    {
      var row := measured[i];
      assert measured[..i + 1][..i] == measured[..i];
      assert measured[..i + 1][i] == row;
      if row.conflationLen.Some? {
        totals := totals[row.xdSegId := totals[row.xdSegId] + [row.conflationLen.value]];
      }
      i := i + 1;
    }
    assert measured[..i] == measured;
  }

  /** Lines 27-34: each row whose length can be computed gets it as ConflationLen. */
  method MeasureRows<G>(rows: array<ConflationRow<G>>, len: Lengths<G>)
    modifies rows
    ensures rows[..] == MeasuredAll(old(rows[..]), len)
  {
    var k := 0;
    while k < rows.Length
      invariant 0 <= k <= rows.Length
      invariant forall i :: 0 <= i < k ==> rows[i] == Measured(old(rows[i]), len)
      invariant forall i :: k <= i < rows.Length ==> rows[i] == old(rows[i])
    {
      var m := len.conflationMiles(rows[k].shape);
      if m.Some? {
        rows[k] := rows[k].(conflationLen := m);
      }
      k := k + 1;
    }
  }

  /** Lines 43-46: every row gets the sum of its id's list as ConflationTotalLen. */
  method SetTotals<G>(rows: array<ConflationRow<G>>, totals: map<int, seq<real>>)
    requires forall i :: 0 <= i < rows.Length ==> rows[i].xdSegId in totals
    modifies rows
    ensures rows[..] == WithTotals(old(rows[..]), totals)
  {
    var k := 0;
    while k < rows.Length
      invariant 0 <= k <= rows.Length
      invariant forall i :: 0 <= i < k ==> rows[i] == old(rows[i]).(conflationTotalLen := Some(Sum(totals[old(rows[i]).xdSegId])))
      invariant forall i :: k <= i < rows.Length ==> rows[i] == old(rows[i])
    {
      rows[k] := rows[k].(conflationTotalLen := Some(Sum(totals[rows[k].xdSegId])));
      k := k + 1;
    }
  }

  /** Lines 51-54: every row gets its id's XD length as XDLen. */
  method SetXdLens<G>(rows: array<ConflationRow<G>>, xdLenDict: map<int, real>)
    requires forall i :: 0 <= i < rows.Length ==> rows[i].xdSegId in xdLenDict
    modifies rows
    ensures rows[..] == WithXdLens(old(rows[..]), xdLenDict)
  {
    var k := 0;
    while k < rows.Length
      invariant 0 <= k <= rows.Length
      invariant forall i :: 0 <= i < k ==> rows[i] == old(rows[i]).(xdLen := Some(xdLenDict[old(rows[i]).xdSegId]))
      invariant forall i :: k <= i < rows.Length ==> rows[i] == old(rows[i])
    {
      rows[k] := rows[k].(xdLen := Some(xdLenDict[rows[k].xdSegId]));
      k := k + 1;
    }
  }

  /** Lines 59-62: LenDiff is the absolute difference of the total and XDLen. */
  method SetLenDiffs<G>(rows: array<ConflationRow<G>>)
    requires forall i :: 0 <= i < rows.Length ==> rows[i].conflationTotalLen.Some? && rows[i].xdLen.Some?
    modifies rows
    ensures rows[..] == WithLenDiffs(old(rows[..]))
  {
    var k := 0;
    while k < rows.Length
      invariant 0 <= k <= rows.Length
      invariant forall i :: 0 <= i < k ==>
                  rows[i] == old(rows[i]).(lenDiff := Some(Abs(old(rows[i]).conflationTotalLen.value - old(rows[i]).xdLen.value)))
      invariant forall i :: k <= i < rows.Length ==> rows[i] == old(rows[i])
    {
      rows[k] := rows[k].(lenDiff := Some(Abs(rows[k].conflationTotalLen.value - rows[k].xdLen.value)));
      k := k + 1;
    }
  }

  /**
   * compare_lengths on the conflation rows, updated in place. Every
   * conflation id must be an XD id: otherwise lines 41, 45 and 53 raise
   * KeyError.
   */
  method CompareLengths<G>(xd: seq<XdRow<G>>, rows: array<ConflationRow<G>>, len: Lengths<G>)
    requires forall i :: 0 <= i < rows.Length ==> rows[i].xdSegId in XdIds(xd)
    modifies rows
    ensures rows[..] == Compared(old(rows[..]), xd, len)
  {
    var xdLenDict := BuildXdLenDict(xd, len);
    XdLenKeys(xd, len);
    MeasureRows(rows, len);
    var totals := BuildTotals(xd, rows[..]);
    FinishRows(rows, totals, xdLenDict);
  }

  /** Lines 43-62: the three update loops over the measured rows. */
  method FinishRows<G>(rows: array<ConflationRow<G>>, totals: map<int, seq<real>>, xdLenDict: map<int, real>)
    requires forall i :: 0 <= i < rows.Length ==> rows[i].xdSegId in totals && rows[i].xdSegId in xdLenDict
    modifies rows
    ensures rows[..] == FinishedAll(old(rows[..]), totals, xdLenDict)
  {
    ghost var measured := rows[..];
    SetTotals(rows, totals);
    ghost var withTotals := rows[..];
    assert forall i :: 0 <= i < rows.Length ==> withTotals[i].xdSegId == measured[i].xdSegId;
    SetXdLens(rows, xdLenDict);
    ghost var withXdLens := rows[..];
    assert forall i :: 0 <= i < rows.Length ==> withXdLens[i].conflationTotalLen.Some? && withXdLens[i].xdLen.Some?;
    SetLenDiffs(rows);
    StagesCompose(measured, totals, xdLenDict);
  }

  // ------------------------------------------------------------ properties

  /** Every element of LensFor is the length of a row with that id, and a row with a length contributes it. */
  lemma {:induction false} LensForMembers<G>(rows: seq<ConflationRow<G>>, id: int)
    ensures forall x :: x in LensFor(rows, id) ==>
              exists i :: 0 <= i < |rows| && rows[i].xdSegId == id && rows[i].conflationLen == Some(x)
    ensures forall i :: 0 <= i < |rows| && rows[i].xdSegId == id && rows[i].conflationLen.Some? ==>
              rows[i].conflationLen.value in LensFor(rows, id)
  {
    if rows != [] {
      var pre := rows[..|rows| - 1];
      LensForMembers(pre, id);
      forall x | x in LensFor(rows, id)
        ensures exists i :: 0 <= i < |rows| && rows[i].xdSegId == id && rows[i].conflationLen == Some(x)
      {
        if x in LensFor(pre, id) {
          var i :| 0 <= i < |pre| && pre[i].xdSegId == id && pre[i].conflationLen == Some(x);
          assert rows[i] == pre[i];
        } else {
          assert rows[|rows| - 1].conflationLen == Some(x);
        }
      }
      forall i | 0 <= i < |rows| && rows[i].xdSegId == id && rows[i].conflationLen.Some?
        ensures rows[i].conflationLen.value in LensFor(rows, id)
      {
        if i < |pre| {
          assert pre[i] == rows[i];
        }
      }
    }
  }

  /** A row that is the only one of its id, and has a length, has that length as its total. */
  lemma {:induction false} LensForSingle<G>(rows: seq<ConflationRow<G>>, i: nat)
    requires i < |rows| && rows[i].conflationLen.Some?
    requires forall j :: 0 <= j < |rows| && j != i ==> rows[j].xdSegId != rows[i].xdSegId
    ensures LensFor(rows, rows[i].xdSegId) == [rows[i].conflationLen.value]
  {
    var pre := rows[..|rows| - 1];
    if i < |rows| - 1 {
      assert pre[i] == rows[i];
      LensForSingle(pre, i);
    } else {
      LensForNone(pre, rows[i].xdSegId);
    }
  }

  lemma {:induction false} LensForNone<G>(rows: seq<ConflationRow<G>>, id: int)
    requires forall j :: 0 <= j < |rows| ==> rows[j].xdSegId != id
    ensures LensFor(rows, id) == []
  {
    if rows != [] {
      LensForNone(rows[..|rows| - 1], id);
    }
  }

  /**
   * What compare_lengths writes into each row: the id and shape are kept,
   * ConflationLen is the computed length or, where that raises, the old
   * value; the total is the sum of that id's non-null lengths; XDLen is the
   * length of the last XD row with that id; LenDiff is the absolute
   * difference, never negative.
   */
  lemma ComparedRow<G>(rows: seq<ConflationRow<G>>, xd: seq<XdRow<G>>, len: Lengths<G>, i: nat, j: nat)
    requires forall k :: 0 <= k < |rows| ==> rows[k].xdSegId in XdIds(xd)
    requires i < |rows| && j < |xd| && xd[j].xdSegId == rows[i].xdSegId
    requires forall k :: j < k < |xd| ==> xd[k].xdSegId != xd[j].xdSegId
    ensures var out := Compared(rows, xd, len)[i];
            var measured := MeasuredAll(rows, len);
            && |Compared(rows, xd, len)| == |rows|
            && out.xdSegId == rows[i].xdSegId && out.shape == rows[i].shape
            && (len.conflationMiles(rows[i].shape).Some? ==> out.conflationLen == len.conflationMiles(rows[i].shape))
            && (len.conflationMiles(rows[i].shape).None? ==> out.conflationLen == rows[i].conflationLen)
            && out.conflationTotalLen == Some(Sum(LensFor(measured, rows[i].xdSegId)))
            && out.xdLen == Some(len.xdMiles(xd[j].shape))
            && out.lenDiff.Some? && out.lenDiff.value >= 0.0
            && (out.lenDiff.value == out.conflationTotalLen.value - out.xdLen.value ||
                out.lenDiff.value == out.xdLen.value - out.conflationTotalLen.value)
  {
    XdLenKeys(xd, len);
    DictFromPairsLastWins(XdLenPairs(xd, len), j);
  }

  /** Rows that share an XDSegID share ConflationTotalLen, XDLen and LenDiff. */
  lemma SharedIdSharedTotals<G>(rows: seq<ConflationRow<G>>, xd: seq<XdRow<G>>, len: Lengths<G>, i: nat, j: nat)
    requires forall k :: 0 <= k < |rows| ==> rows[k].xdSegId in XdIds(xd)
    requires i < |rows| && j < |rows| && rows[i].xdSegId == rows[j].xdSegId
    ensures var out := Compared(rows, xd, len);
            out[i].conflationTotalLen == out[j].conflationTotalLen &&
            out[i].xdLen == out[j].xdLen && out[i].lenDiff == out[j].lenDiff
  {
  }

  /**
   * The total of an id is made of exactly the measured lengths of its rows;
   * an id with a single conflation row whose length is computed has that
   * length as its total.
   */
  lemma TotalIsSumOfLengths<G>(rows: seq<ConflationRow<G>>, xd: seq<XdRow<G>>, len: Lengths<G>, i: nat)
    requires forall k :: 0 <= k < |rows| ==> rows[k].xdSegId in XdIds(xd)
    requires i < |rows|
    ensures var measured := MeasuredAll(rows, len);
            var lens := LensFor(measured, rows[i].xdSegId);
            && Compared(rows, xd, len)[i].conflationTotalLen == Some(Sum(lens))
            && (forall x :: x in lens ==> exists k :: 0 <= k < |rows| && rows[k].xdSegId == rows[i].xdSegId &&
                                                measured[k].conflationLen == Some(x))
            && (forall k :: 0 <= k < |rows| && rows[k].xdSegId == rows[i].xdSegId && measured[k].conflationLen.Some? ==>
                              measured[k].conflationLen.value in lens)
            && ((forall k :: 0 <= k < |rows| && k != i ==> rows[k].xdSegId != rows[i].xdSegId) &&
                len.conflationMiles(rows[i].shape).Some? ==>
                  Compared(rows, xd, len)[i].conflationTotalLen == len.conflationMiles(rows[i].shape))
  {
    var measured := MeasuredAll(rows, len);
    LensForMembers(measured, rows[i].xdSegId);
    if (forall k :: 0 <= k < |rows| && k != i ==> rows[k].xdSegId != rows[i].xdSegId) &&
       len.conflationMiles(rows[i].shape).Some? {
      LensForSingle(measured, i);
      assert Sum([measured[i].conflationLen.value]) == measured[i].conflationLen.value;
    }
  }
}
