/**
 * count_mileage_XD and count_mileage_TMC (measureMileageByDistrict.py):
 * each district's mileage is the rounded sum of |end - begin| over the
 * events selected by intersection with its shape, and the table is ordered
 * by mileage, largest first.
 */
module MeasureMileage {
  import opened Py

  /** A row of the districts layer: DISTRICT_N and SHAPE@. */
  datatype District<D> = District(name: Name, shape: D)

  /**
   * SelectLayerByLocation(layer, 'INTERSECT', shape) followed by a cursor
   * over the selected events: their (begin, end) measures, which are
   * BEGIN_MSR/END_MSR for XD events and STARTMILEP/ENDMILEPOI for TMC
   * events.
   */
  type Selection<!D> = D -> seq<(Msr, Msr)>

  /** A row of the output table: (District, Miles). */
  type MileageRow = (Name, int)

  /** `if begin and end:` */
  predicate Counted(ev: (Msr, Msr)) {
    TruthyNumber(ev.0) && TruthyNumber(ev.1)
  }

  /** The `lengths` list of one district. */
  function Lengths(events: seq<(Msr, Msr)>): seq<real> {
    if events == [] then []
    else
      var ev := events[|events| - 1];
      Lengths(events[..|events| - 1]) + (if Counted(ev) then [Abs(ev.1.value - ev.0.value)] else [])
  }

  /** `round(sum(lengths))` */
  function Miles(events: seq<(Msr, Msr)>): int {
    RoundHalfEven(Sum(Lengths(events)))
  }

  /** The `output` list before sorting: one row per district, in cursor order. */
  function Output<D>(districts: seq<District<D>>, select: Selection<D>): seq<MileageRow> {
    seq(|districts|, i requires 0 <= i < |districts| => (districts[i].name, Miles(select(districts[i].shape))))
  }

  predicate SortedDesc(s: seq<MileageRow>) {
    forall i, j :: 0 <= i < j < |s| ==> s[i].1 >= s[j].1
  }

  /** Places `x` before the first row whose mileage is not larger than its own. */
  function InsertByMiles(x: MileageRow, s: seq<MileageRow>): (r: seq<MileageRow>)
    requires SortedDesc(s)
    ensures SortedDesc(r)
    ensures multiset(r) == multiset(s) + multiset{x}
    ensures forall y :: y in r ==> y == x || y in s
  {
    if s == [] then [x]
    else if x.1 >= s[0].1 then [x] + s
    else
      var rest := InsertByMiles(x, s[1..]);
      assert s == [s[0]] + s[1..];
      assert forall k :: 0 <= k < |rest| ==> rest[k].1 <= s[0].1 by {
        forall k | 0 <= k < |rest| ensures rest[k].1 <= s[0].1 {
          assert rest[k] in rest;
        }
      }
      HeadSorted(s[0], rest);
      [s[0]] + rest
  }

  lemma HeadSorted(y: MileageRow, rest: seq<MileageRow>)
    requires SortedDesc(rest)
    requires forall k :: 0 <= k < |rest| ==> rest[k].1 <= y.1
    ensures SortedDesc([y] + rest)
  {
    var r := [y] + rest;
    forall i, j | 0 <= i < j < |r| ensures r[i].1 >= r[j].1 {
      assert r[j] == rest[j - 1];
      if i > 0 {
        assert r[i] == rest[i - 1];
      }
    }
  }

  /**
   * `df.sort_values(by=['Miles'], ascending=False)`: the same rows, ordered
   * by mileage, largest first.
   */
  function SortByMiles(s: seq<MileageRow>): (r: seq<MileageRow>)
    ensures SortedDesc(r)
    ensures multiset(r) == multiset(s)
  {
    if s == [] then []
    else
      assert s == [s[0]] + s[1..];
      InsertByMiles(s[0], SortByMiles(s[1..]))
  }

  /** The inner loop of lines 11-15 (and 29-33). */
  method DistrictLengths(events: seq<(Msr, Msr)>) returns (lengths: seq<real>)
    ensures lengths == Lengths(events)
  {
    lengths := [];
    var j := 0;
    while j < |events|
      invariant 0 <= j <= |events|
      invariant lengths == Lengths(events[..j])
    {
      assert events[..j + 1][..j] == events[..j];
      var (begin, end) := events[j];
      if TruthyNumber(begin) && TruthyNumber(end) {
        var length := Abs(end.value - begin.value);
        lengths := lengths + [length];
      }
      j := j + 1;
    }
    assert events[..j] == events;
  }

  /**
   * count_mileage_XD (lines 4-20) and, with the TMC measures as the
   * selection, count_mileage_TMC (lines 22-38): the sorted table.
   */
  method CountMileage<D>(districts: seq<District<D>>, select: Selection<D>) returns (table: seq<MileageRow>)
    ensures table == SortByMiles(Output(districts, select))
  {
    var output: seq<MileageRow> := [];
    var i := 0;
    while i < |districts|
      invariant 0 <= i <= |districts|
      invariant output == Output(districts[..i], select)
    {
      var row := districts[i];
      var lengths := DistrictLengths(select(row.shape));
      output := output + [(row.name, RoundHalfEven(Sum(lengths)))];
      i := i + 1;
    }
    assert districts[..i] == districts;
    table := SortByMiles(output);
  }

  // ------------------------------------------------------------ properties

  /** Every length comes from an event with two truthy measures. */
  lemma {:induction false} LengthsSound(events: seq<(Msr, Msr)>)
    ensures forall x :: x in Lengths(events) ==>
              exists j :: 0 <= j < |events| && Counted(events[j]) && x == Abs(events[j].1.value - events[j].0.value)
  {
    if events != [] {
      var pre := events[..|events| - 1];
      LengthsSound(pre);
      forall x | x in Lengths(events)
        ensures exists j :: 0 <= j < |events| && Counted(events[j]) && x == Abs(events[j].1.value - events[j].0.value)
      {
        if x in Lengths(pre) {
          var j :| 0 <= j < |pre| && Counted(pre[j]) && x == Abs(pre[j].1.value - pre[j].0.value);
          assert pre[j] == events[j];
        }
      }
    }
  }

  /** Every event with two truthy measures contributes its length. */
  lemma {:induction false} LengthsComplete(events: seq<(Msr, Msr)>)
    ensures forall j :: 0 <= j < |events| && Counted(events[j]) ==>
              Abs(events[j].1.value - events[j].0.value) in Lengths(events)
    ensures |Lengths(events)| <= |events|
  {
    if events != [] {
      var pre := events[..|events| - 1];
      LengthsComplete(pre);
      forall j | 0 <= j < |events| && Counted(events[j])
        ensures Abs(events[j].1.value - events[j].0.value) in Lengths(events)
      {
        if j < |pre| {
          assert pre[j] == events[j];
        }
      }
    }
  }

  /**
   * The lengths of a district are exactly the |end - begin| of its selected
   * events whose two measures are truthy: an event with a null or zero
   * measure contributes nothing. Every length is non-negative.
   */
  lemma LengthsMeaning(events: seq<(Msr, Msr)>)
    ensures forall x :: x in Lengths(events) ==>
              exists j :: 0 <= j < |events| && Counted(events[j]) && x == Abs(events[j].1.value - events[j].0.value)
    ensures forall j :: 0 <= j < |events| && Counted(events[j]) ==>
              Abs(events[j].1.value - events[j].0.value) in Lengths(events)
    ensures forall k :: 0 <= k < |Lengths(events)| ==> Lengths(events)[k] >= 0.0
    ensures |Lengths(events)| <= |events|
  {
    LengthsSound(events);
    LengthsComplete(events);
    forall k | 0 <= k < |Lengths(events)| ensures Lengths(events)[k] >= 0.0 {
      assert Lengths(events)[k] in Lengths(events);
    }
  }

  /** Events none of which has two truthy measures give zero miles. */
  lemma {:induction false} UncountedEventsGiveZero(events: seq<(Msr, Msr)>)
    requires forall j :: 0 <= j < |events| ==> !Counted(events[j])
    ensures Lengths(events) == [] && Miles(events) == 0
  {
    if events != [] {
      UncountedEventsGiveZero(events[..|events| - 1]);
    }
  }

  /** A district's mileage is non-negative and within one half of the exact sum. */
  lemma MilesBounds(events: seq<(Msr, Msr)>)
    ensures Miles(events) >= 0
    ensures -0.5 <= Miles(events) as real - Sum(Lengths(events)) <= 0.5
  {
    LengthsMeaning(events);
    SumNonNegative(Lengths(events));
    RoundNonNegative(Sum(Lengths(events)));
  }

  /**
   * The table holds exactly one row per district, each with that district's
   * name and non-negative mileage, ordered by mileage from largest to
   * smallest.
   */
  lemma TableMeaning<D>(districts: seq<District<D>>, select: Selection<D>)
    ensures var table := SortByMiles(Output(districts, select));
            && |table| == |districts|
            && SortedDesc(table)
            && multiset(table) == multiset(Output(districts, select))
            && (forall i :: 0 <= i < |districts| ==> (districts[i].name, Miles(select(districts[i].shape))) in table)
            && (forall row :: row in table ==>
                  row.1 >= 0 && exists i :: 0 <= i < |districts| && row == (districts[i].name, Miles(select(districts[i].shape))))
  {
    var output := Output(districts, select);
    var table := SortByMiles(output);
    assert |table| == |multiset(table)| == |multiset(output)| == |output|;
    forall i | 0 <= i < |districts|
      ensures (districts[i].name, Miles(select(districts[i].shape))) in table
    {
      assert output[i] in multiset(output);
    }
    forall row | row in table
      ensures row.1 >= 0 && exists i :: 0 <= i < |districts| && row == (districts[i].name, Miles(select(districts[i].shape)))
    {
      assert row in multiset(table);
      assert row in output;
      var i :| 0 <= i < |output| && output[i] == row;
      MilesBounds(select(districts[i].shape));
    }
  }
}
