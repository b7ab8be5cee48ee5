/**
 * The overlap finder (FindOverlappingEvents.py): an event is reported when
 * more than one event on its route, itself included, contains its measure
 * interval.
 */
module FindOverlappingEvents {
  import opened Py
  import opened EventTable

  /** A (BEGIN_MSR, END_MSR) pair as stored in EventDict. */
  type Interval = (Msr, Msr)

  /** The RTE_NM values of the layer: the keys of EventDict. */
  function RouteNames(rows: seq<Event>): set<Name> {
    set i | 0 <= i < |rows| :: rows[i].rteNm
  }

  /** The intervals of the events on route `k`, in cursor order. */
  function Intervals(rows: seq<Event>, k: Name): seq<Interval> {
    if rows == [] then []
    else
      var last := rows[|rows| - 1];
      Intervals(rows[..|rows| - 1], k) + (if last.rteNm == k then [(last.beginMsr, last.endMsr)] else [])
  }

  /** Each row's own interval is listed under its route. */
  lemma {:induction false} OwnInterval(rows: seq<Event>, i: nat)
    requires i < |rows|
    ensures exists j :: 0 <= j < |Intervals(rows, rows[i].rteNm)| &&
                        Intervals(rows, rows[i].rteNm)[j] == (rows[i].beginMsr, rows[i].endMsr)
  {
    var k := rows[i].rteNm;
    var pre := rows[..|rows| - 1];
    if i == |rows| - 1 {
      var ivs := Intervals(rows, k);
      assert ivs[|ivs| - 1] == (rows[i].beginMsr, rows[i].endMsr);
    } else {
      assert pre[i] == rows[i];
      OwnInterval(pre, i);
      var j :| 0 <= j < |Intervals(pre, k)| && Intervals(pre, k)[j] == (rows[i].beginMsr, rows[i].endMsr);
      assert Intervals(rows, k)[j] == Intervals(pre, k)[j];
    }
  }

  /**
   * Lines 7-15: EventDict maps every route name of the layer to the
   * intervals of its events, in cursor order. Every key is filled in first,
   * so the KeyError handler of the second loop never runs.
   */
  method BuildEventDict(rows: seq<Event>) returns (eventDict: map<Name, seq<Interval>>)
    ensures eventDict.Keys == RouteNames(rows)
    ensures forall k :: k in eventDict ==> eventDict[k] == Intervals(rows, k)
    ensures forall j :: 0 <= j < |rows| ==> rows[j].rteNm in eventDict
  {
    eventDict := map k | k in RouteNames(rows) :: [];
    var i := 0;
    while i < |rows|
      invariant 0 <= i <= |rows|
      invariant eventDict.Keys == RouteNames(rows)
      invariant forall k :: k in eventDict ==> eventDict[k] == Intervals(rows[..i], k)
    {
      var row := rows[i];
      assert rows[..i + 1][..i] == rows[..i];
      assert rows[..i + 1][i] == row;
      assert row.rteNm in RouteNames(rows);
      eventDict := eventDict[row.rteNm := eventDict[row.rteNm] + [(row.beginMsr, row.endMsr)]];
      i := i + 1;
    }
    assert rows[..i] == rows;
    assert forall j :: 0 <= j < |rows| ==> rows[j].rteNm in RouteNames(rows);
  }

  /**
   * `BEGIN_MSR >= event[0] and END_MSR <= event[1]`, or None where a
   * comparison with a null measure raises TypeError. The second comparison
   * is only reached when the first holds.
   */
  function Contains(b: Msr, e: Msr, event: Interval): Option<bool> {
    if b.None? || event.0.None? then None
    else if !(b.value >= event.0.value) then Some(false)
    else if e.None? || event.1.None? then None
    else Some(e.value <= event.1.value)
  }

  /** overlapCount over `events`, or None when one of the comparisons raises. */
  function CountContaining(b: Msr, e: Msr, events: seq<Interval>): Option<nat> {
    if events == [] then Some(0)
    else
      match CountContaining(b, e, events[..|events| - 1])
      case None => None
      case Some(n) =>
        match Contains(b, e, events[|events| - 1])
        case None => None
        case Some(c) => Some(if c then n + 1 else n)
  }

  /** The inner loop of lines 24-27. */
  method OverlapCount(b: Msr, e: Msr, events: seq<Interval>) returns (r: Option<nat>)
    ensures r == CountContaining(b, e, events)
  {
    var overlapCount := 0;
    var i := 0;
    while i < |events|
      invariant 0 <= i <= |events|
      invariant CountContaining(b, e, events[..i]) == Some(overlapCount)
    {
      assert events[..i + 1][..i] == events[..i];
      var c := Contains(b, e, events[i]);
      if c.None? {
        assert events[..i + 1][i] == events[i];
        CountNoneExtends(b, e, events[..i + 1], events);
        return None;
      }
      if c.value {
        overlapCount := overlapCount + 1;
      }
      i := i + 1;
    }
    assert events[..i] == events;
    r := Some(overlapCount);
  }

  /** Once a comparison has raised, the count of any longer list raises too. */
  lemma {:induction false} CountNoneExtends(b: Msr, e: Msr, pre: seq<Interval>, events: seq<Interval>)
    requires pre <= events && CountContaining(b, e, pre).None?
    ensures CountContaining(b, e, events).None?
  {
    if |events| > |pre| {
      assert events[..|events| - 1][..|pre|] == pre;
      CountNoneExtends(b, e, pre, events[..|events| - 1]);
    } else {
      assert pre == events;
    }
  }

  /** One event that raises makes the whole count raise. */
  lemma CountNoneIfAnyRaises(b: Msr, e: Msr, events: seq<Interval>, j: nat)
    requires j < |events| && Contains(b, e, events[j]).None?
    ensures CountContaining(b, e, events).None?
  {
    assert events[..j + 1][..j] == events[..j];
    assert events[..j + 1][j] == events[j];
    assert events[..j + 1] <= events;
    CountNoneExtends(b, e, events[..j + 1], events);
  }

  /** When no comparison raises, the count is positive exactly when a listed event contains the interval. */
  lemma {:induction false} CountAtLeastOne(b: Msr, e: Msr, events: seq<Interval>)
    requires CountContaining(b, e, events).Some?
    ensures CountContaining(b, e, events).value >= 1 <==>
              exists j :: 0 <= j < |events| && Contains(b, e, events[j]) == Some(true)
  {
    if events != [] {
      var pre := events[..|events| - 1];
      CountAtLeastOne(b, e, pre);
      if exists j :: 0 <= j < |events| && Contains(b, e, events[j]) == Some(true) {
        var j :| 0 <= j < |events| && Contains(b, e, events[j]) == Some(true);
        if j < |events| - 1 {
          assert Contains(b, e, pre[j]) == Some(true);
        }
      }
      if CountContaining(b, e, pre).value >= 1 {
        var j :| 0 <= j < |pre| && Contains(b, e, pre[j]) == Some(true);
        assert Contains(b, e, events[j]) == Some(true);
      }
    }
  }

  /**
   * When no comparison raises, the count is at least one exactly when a
   * listed event contains the interval, and at least two exactly when two
   * different listed events do.
   */
  lemma {:induction false} CountAtLeastTwo(b: Msr, e: Msr, events: seq<Interval>)
    requires CountContaining(b, e, events).Some?
    ensures CountContaining(b, e, events).value >= 1 <==>
              exists j :: 0 <= j < |events| && Contains(b, e, events[j]) == Some(true)
    ensures CountContaining(b, e, events).value >= 2 <==>
              exists j1, j2 :: 0 <= j1 < j2 < |events| &&
                Contains(b, e, events[j1]) == Some(true) && Contains(b, e, events[j2]) == Some(true)
  {
    CountAtLeastOne(b, e, events);
    if events != [] {
      var pre := events[..|events| - 1];
      var last := |events| - 1;
      CountAtLeastTwo(b, e, pre);
      if CountContaining(b, e, events).value >= 2 {
        if CountContaining(b, e, pre).value >= 2 {
          var j1, j2 :| 0 <= j1 < j2 < |pre| &&
            Contains(b, e, pre[j1]) == Some(true) && Contains(b, e, pre[j2]) == Some(true);
          assert Contains(b, e, events[j1]) == Some(true) && Contains(b, e, events[j2]) == Some(true);
        } else {
          var j :| 0 <= j < |pre| && Contains(b, e, pre[j]) == Some(true);
          assert Contains(b, e, events[j]) == Some(true) && Contains(b, e, events[last]) == Some(true);
        }
      }
      if exists j1, j2 :: 0 <= j1 < j2 < |events| &&
           Contains(b, e, events[j1]) == Some(true) && Contains(b, e, events[j2]) == Some(true) {
        var j1, j2 :| 0 <= j1 < j2 < |events| &&
          Contains(b, e, events[j1]) == Some(true) && Contains(b, e, events[j2]) == Some(true);
        if j2 < last {
          assert Contains(b, e, pre[j1]) == Some(true) && Contains(b, e, pre[j2]) == Some(true);
        } else {
          assert Contains(b, e, pre[j1]) == Some(true);
        }
      }
    }
  }

  /** Whether a row is reported: its count does not raise and is above one. */
  predicate IsFlagged(row: Event, rows: seq<Event>) {
    var c := CountContaining(row.beginMsr, row.endMsr, Intervals(rows, row.rteNm));
    c.Some? && c.value > 1
  }

  /** The rows reported, in cursor order. */
  function Overlaps(rows: seq<Event>, all: seq<Event>): seq<Event> {
    if rows == [] then []
    else Overlaps(rows[..|rows| - 1], all) + (if IsFlagged(rows[|rows| - 1], all) then [rows[|rows| - 1]] else [])
  }

  /** The reported rows are rows of the layer, in cursor order, each of them flagged. */
  lemma {:induction false} OverlapsAreFlaggedRows(rows: seq<Event>, all: seq<Event>)
    ensures |Overlaps(rows, all)| <= |rows|
    ensures forall x :: x in Overlaps(rows, all) ==> x in rows && IsFlagged(x, all)
    ensures forall x :: x in rows && IsFlagged(x, all) ==> x in Overlaps(rows, all)
  {
    if rows != [] {
      var pre := rows[..|rows| - 1];
      OverlapsAreFlaggedRows(pre, all);
      assert rows == pre + [rows[|rows| - 1]];
    }
  }

  /**
   * A row with both measures non-null contains itself; it is flagged exactly
   * when no comparison raises and a second listed event contains it too.
   */
  lemma FlaggedIffSecondContainer(rows: seq<Event>, i: nat)
    requires i < |rows| && rows[i].beginMsr.Some? && rows[i].endMsr.Some?
    ensures var row := rows[i];
            var events := Intervals(rows, row.rteNm);
            (exists j :: 0 <= j < |events| && events[j] == (row.beginMsr, row.endMsr) &&
                         Contains(row.beginMsr, row.endMsr, events[j]) == Some(true)) &&
            (IsFlagged(row, rows) <==>
               CountContaining(row.beginMsr, row.endMsr, events).Some? &&
               exists j1, j2 :: 0 <= j1 < j2 < |events| &&
                 Contains(row.beginMsr, row.endMsr, events[j1]) == Some(true) &&
                 Contains(row.beginMsr, row.endMsr, events[j2]) == Some(true))
  {
    var row := rows[i];
    var events := Intervals(rows, row.rteNm);
    OwnInterval(rows, i);
    if CountContaining(row.beginMsr, row.endMsr, events).Some? {
      CountAtLeastTwo(row.beginMsr, row.endMsr, events);
    }
  }

  /** A row with a null measure makes the comparison with its own interval raise, so it is never reported. */
  lemma NullMeasureNeverFlagged(rows: seq<Event>, i: nat)
    requires i < |rows| && (rows[i].beginMsr.None? || rows[i].endMsr.None?)
    ensures !IsFlagged(rows[i], rows)
  {
    var row := rows[i];
    OwnInterval(rows, i);
    var events := Intervals(rows, row.rteNm);
    var j :| 0 <= j < |events| && events[j] == (row.beginMsr, row.endMsr);
    CountNoneIfAnyRaises(row.beginMsr, row.endMsr, events, j);
  }

  lemma OverlapsStep(rows: seq<Event>, i: nat, all: seq<Event>)
    requires i < |rows|
    ensures Overlaps(rows[..i + 1], all) == Overlaps(rows[..i], all) + (if IsFlagged(rows[i], all) then [rows[i]] else [])
  {
    assert rows[..i + 1][..i] == rows[..i];
  }

  /**
   * The scan of lines 17-31: the rows whose count exceeds one, in cursor
   * order; a row whose comparisons raise is skipped.
   */
  method FindOverlaps(rows: seq<Event>) returns (overlaps: seq<Event>)
    ensures overlaps == Overlaps(rows, rows)
  {
    var eventDict := BuildEventDict(rows);
    overlaps := [];
    var i := 0;
    while i < |rows|
      invariant 0 <= i <= |rows|
      invariant forall j :: 0 <= j < |rows| ==>
                  rows[j].rteNm in eventDict && eventDict[rows[j].rteNm] == Intervals(rows, rows[j].rteNm)
      invariant overlaps == Overlaps(rows[..i], rows)
    {
      var row := rows[i];
      var events := eventDict[row.rteNm];
      var overlapCount := OverlapCount(row.beginMsr, row.endMsr, events);
      var flagged := overlapCount.Some? && overlapCount.value > 1;
      assert flagged == IsFlagged(row, rows);
      OverlapsStep(rows, i, rows);
      if flagged {
        overlaps := overlaps + [row];
      }
      assert overlaps == Overlaps(rows[..i + 1], rows);
      i := i + 1;
    }
    assert rows[..i] == rows;
  }
}
