/**
 * The part of Python's collections.Counter that the route matcher uses:
 * `c[k] += 1` (a missing key counts as 0 and is added at the end), the
 * counts in insertion order, and `most_common(n)`, which is the first n
 * entries of a stable sort by count, largest first.
 */
module Counter {
  import opened Py

  /** A Counter of route names as its (key, count) entries in insertion order. */
  type Tally = seq<(Name, nat)>

  predicate DistinctKeys(c: Tally) {
    forall i, j :: 0 <= i < j < |c| ==> c[i].0 != c[j].0
  }

  /** Where `k` is stored, or -1. */
  function IndexOf(c: Tally, k: Name): (r: int)
    ensures -1 <= r < |c|
    ensures r >= 0 ==> c[r].0 == k
    ensures r < 0 <==> forall i :: 0 <= i < |c| ==> c[i].0 != k
    ensures DistinctKeys(c) ==> forall i :: 0 <= i < |c| && c[i].0 == k ==> r == i
  {
    if c == [] then -1
    else if c[|c| - 1].0 == k then |c| - 1
    else IndexOf(c[..|c| - 1], k)
  }

  /** `c[k]`: the count of `k`, 0 when it is missing. */
  function Get(c: Tally, k: Name): nat {
    var i := IndexOf(c, k);
    if i < 0 then 0 else c[i].1
  }

  /** `c[k] += 1` */
  function Increment(c: Tally, k: Name): Tally {
    var i := IndexOf(c, k);
    if i < 0 then c + [(k, 1)] else c[i := (k, c[i].1 + 1)]
  }

  /** The Counter after `c[k] += 1` for each k in order, starting empty. */
  function TallyOf(ks: seq<Name>): Tally {
    if ks == [] then [] else Increment(TallyOf(ks[..|ks| - 1]), ks[|ks| - 1])
  }

  /** Counting one more key is one more `c[k] += 1`. */
  lemma TallyAppend(ks: seq<Name>, k: Name)
    ensures TallyOf(ks + [k]) == Increment(TallyOf(ks), k)
  {
    assert (ks + [k])[..|ks|] == ks;
  }

  /** How often `k` occurs in `ks`. */
  function Occ(ks: seq<Name>, k: Name): nat {
    if ks == [] then 0 else Occ(ks[..|ks| - 1], k) + (if ks[|ks| - 1] == k then 1 else 0)
  }

  /** `c[x] += 1` adds one to the count of x and leaves every other count alone. */
  lemma IncrementFacts(c: Tally, x: Name)
    requires DistinctKeys(c) && forall i :: 0 <= i < |c| ==> c[i].1 >= 1
    ensures DistinctKeys(Increment(c, x))
    ensures forall i :: 0 <= i < |Increment(c, x)| ==> Increment(c, x)[i].1 >= 1
    ensures forall k :: Get(Increment(c, x), k) == Get(c, k) + (if k == x then 1 else 0)
    ensures |Increment(c, x)| > 0
  {
    IncrementShape(c, x);
    forall k ensures Get(Increment(c, x), k) == Get(c, k) + (if k == x then 1 else 0) {
      IncrementGet(c, x, k);
    }
  }

  /** `c[x] += 1` keeps the keys distinct and every count positive. */
  lemma IncrementShape(c: Tally, x: Name)
    requires DistinctKeys(c) && forall i :: 0 <= i < |c| ==> c[i].1 >= 1
    ensures DistinctKeys(Increment(c, x))
    ensures forall i :: 0 <= i < |Increment(c, x)| ==> Increment(c, x)[i].1 >= 1
    ensures |Increment(c, x)| > 0
  {
    var i := IndexOf(c, x);
    var c' := Increment(c, x);
    if i < 0 {
      assert c' == c + [(x, 1)];
      forall m, n | 0 <= m < n < |c'| ensures c'[m].0 != c'[n].0 {
        assert c'[m] == c[m];
        if n < |c| {
          assert c'[n] == c[n];
        }
      }
    } else {
      assert c' == c[i := (x, c[i].1 + 1)];
      assert forall m :: 0 <= m < |c| ==> c'[m].0 == c[m].0;
    }
  }

  /** The count of one key `k` after `c[x] += 1`. */
  lemma IncrementGet(c: Tally, x: Name, k: Name)
    requires DistinctKeys(c)
    ensures Get(Increment(c, x), k) == Get(c, k) + (if k == x then 1 else 0)
  {
    var i := IndexOf(c, x);
    var c' := Increment(c, x);
    if i < 0 {
      assert c' == c + [(x, 1)];
      assert c'[..|c'| - 1] == c;
      if k == x {
        assert IndexOf(c', k) == |c|;
      }
    } else {
      assert c' == c[i := (x, c[i].1 + 1)];
      if k == x {
        assert c'[i].0 == k;
      } else {
        var j := IndexOf(c, k);
        if j >= 0 {
          assert c'[j] == c[j];
        } else {
          assert forall m :: 0 <= m < |c'| ==> c'[m].0 != k;
        }
      }
    }
  }

  /**
   * A Counter filled from a list has one entry per distinct element, and
   * each element's count is the number of its occurrences.
   */
  lemma {:induction false} TallyCounts(ks: seq<Name>)
    ensures DistinctKeys(TallyOf(ks))
    ensures forall k :: Get(TallyOf(ks), k) == Occ(ks, k)
    ensures forall i :: 0 <= i < |TallyOf(ks)| ==> TallyOf(ks)[i].1 >= 1
    ensures |TallyOf(ks)| == 0 <==> ks == []
  {
    if ks != [] {
      var pre := ks[..|ks| - 1];
      TallyCounts(pre);
      IncrementFacts(TallyOf(pre), ks[|ks| - 1]);
    }
  }

  // ---------------------------------------------------------- most_common

  /** The entries whose count is `v`, in insertion order. */
  function FilterEq(c: Tally, v: nat): Tally {
    if c == [] then [] else (if c[0].1 == v then [c[0]] else []) + FilterEq(c[1..], v)
  }

  /** `list(c.values())` */
  function Values(c: Tally): (r: seq<nat>)
    ensures |r| == |c|
    ensures forall i :: 0 <= i < |c| ==> r[i] == c[i].1
  {
    seq(|c|, i requires 0 <= i < |c| => c[i].1)
  }

  /** `xs.count(v)` */
  function CountOf(xs: seq<nat>, v: nat): nat {
    if xs == [] then 0 else (if xs[0] == v then 1 else 0) + CountOf(xs[1..], v)
  }

  /** `max(xs)` for a non-empty list of counts. */
  function MaxOf(xs: seq<nat>): (r: nat)
    requires |xs| > 0
    ensures forall i :: 0 <= i < |xs| ==> xs[i] <= r
    ensures exists i :: 0 <= i < |xs| && xs[i] == r
  {
    if |xs| == 1 then xs[0]
    else
      var m := MaxOf(xs[1..]);
      assert forall i :: 1 <= i < |xs| ==> xs[i] == xs[1..][i - 1];
      if xs[0] < m then m else xs[0]
  }

  /** Place `x` in front of the first entry whose count is not larger. */
  function Insert(x: (Name, nat), s: Tally): Tally {
    if s == [] then [x]
    else if s[0].1 > x.1 then [s[0]] + Insert(x, s[1..])
    else [x] + s
  }

  /** `sorted(c.items(), key=count, reverse=True)`, which keeps equal counts in insertion order. */
  function SortByCount(c: Tally): Tally {
    if c == [] then [] else Insert(c[0], SortByCount(c[1..]))
  }

  /** `c.most_common(n)` */
  function MostCommon(c: Tally, n: nat): Tally {
    var s := SortByCount(c);
    if n <= |s| then s[..n] else s
  }

  predicate SortedDesc(s: Tally) {
    forall i, j :: 0 <= i < j < |s| ==> s[i].1 >= s[j].1
  }

  /** Inserting adds exactly one entry. */
  lemma {:induction false} InsertMembers(x: (Name, nat), s: Tally)
    ensures |Insert(x, s)| == |s| + 1
    ensures forall e :: e in Insert(x, s) <==> e == x || e in s
  {
    if s != [] && s[0].1 > x.1 {
      InsertMembers(x, s[1..]);
      assert s == [s[0]] + s[1..];
    }
  }

  /** Inserting into a list sorted by count keeps it sorted. */
  lemma {:induction false} InsertSorted(x: (Name, nat), s: Tally)
    requires SortedDesc(s)
    ensures SortedDesc(Insert(x, s))
  {
    var r := Insert(x, s);
    if s == [] {
    } else if s[0].1 > x.1 {
      var rest := Insert(x, s[1..]);
      InsertSorted(x, s[1..]);
      InsertMembers(x, s[1..]);
      assert r == [s[0]] + rest;
      forall i, j | 0 <= i < j < |r| ensures r[i].1 >= r[j].1 {
        assert r[j] == rest[j - 1];
        if i == 0 {
          assert r[j] in rest;
          if r[j] != x {
            var k :| 0 <= k < |s[1..]| && s[1..][k] == r[j];
            assert s[k + 1] == r[j];
          }
        } else {
          assert r[i] == rest[i - 1];
        }
      }
    } else {
      assert r == [x] + s;
      forall i, j | 0 <= i < j < |r| ensures r[i].1 >= r[j].1 {
        assert r[j] == s[j - 1];
        if i > 0 {
          assert r[i] == s[i - 1];
        }
      }
    }
  }

  lemma FilterEqCons(e: (Name, nat), s: Tally, v: nat)
    ensures FilterEq([e] + s, v) == (if e.1 == v then [e] else []) + FilterEq(s, v)
  {
    assert ([e] + s)[0] == e;
    assert ([e] + s)[1..] == s;
  }

  /** The new entry comes before the entries of equal count. */
  lemma {:induction false} InsertFilter(x: (Name, nat), s: Tally, v: nat)
    ensures FilterEq(Insert(x, s), v) == (if x.1 == v then [x] else []) + FilterEq(s, v)
  {
    if s == [] {
      assert Insert(x, s) == [x] + [];
      FilterEqCons(x, [], v);
    } else if s[0].1 > x.1 {
      var rest := Insert(x, s[1..]);
      assert Insert(x, s) == [s[0]] + rest;
      FilterEqCons(s[0], rest, v);
      InsertFilter(x, s[1..], v);
      var tail := FilterEq(s[1..], v);
      assert FilterEq(s, v) == (if s[0].1 == v then [s[0]] else []) + tail;
      if x.1 == v {
        assert FilterEq(Insert(x, s), v) == [x] + tail;
      } else if s[0].1 == v {
        assert FilterEq(Insert(x, s), v) == [s[0]] + tail;
      } else {
        assert FilterEq(Insert(x, s), v) == tail;
      }
    } else {
      assert Insert(x, s) == [x] + s;
      FilterEqCons(x, s, v);
    }
  }

  lemma InsertFacts(x: (Name, nat), s: Tally)
    ensures |Insert(x, s)| == |s| + 1
    ensures forall e :: e in Insert(x, s) <==> e == x || e in s
    ensures SortedDesc(s) ==> SortedDesc(Insert(x, s))
    ensures forall v :: FilterEq(Insert(x, s), v) == (if x.1 == v then [x] else []) + FilterEq(s, v)
  {
    InsertMembers(x, s);
    if SortedDesc(s) {
      InsertSorted(x, s);
    }
    forall v ensures FilterEq(Insert(x, s), v) == (if x.1 == v then [x] else []) + FilterEq(s, v) {
      InsertFilter(x, s, v);
    }
  }

  /** Sorting keeps the entries, orders them by count, and keeps equal counts in their order. */
  lemma {:induction false} SortFacts(c: Tally)
    ensures |SortByCount(c)| == |c|
    ensures forall e :: e in SortByCount(c) <==> e in c
    ensures SortedDesc(SortByCount(c))
    ensures forall v :: FilterEq(SortByCount(c), v) == FilterEq(c, v)
  {
    if c != [] {
      SortFacts(c[1..]);
      InsertFacts(c[0], SortByCount(c[1..]));
      assert c == [c[0]] + c[1..];
      forall e ensures e in SortByCount(c) <==> e in c {
        assert e in c <==> e == c[0] || e in c[1..];
      }
    }
  }

  lemma {:induction false} FilterEqNone(s: Tally, m: nat)
    requires forall i :: 0 <= i < |s| ==> s[i].1 != m
    ensures FilterEq(s, m) == []
  {
    if s != [] {
      FilterEqNone(s[1..], m);
    }
  }

  /** In a list sorted by count with no count above m, the entries with count m come first. */
  lemma {:induction false} SortedPrefix(s: Tally, m: nat)
    requires SortedDesc(s)
    requires forall i :: 0 <= i < |s| ==> s[i].1 <= m
    ensures |FilterEq(s, m)| <= |s|
    ensures s[..|FilterEq(s, m)|] == FilterEq(s, m)
  {
    if s != [] {
      if s[0].1 == m {
        SortedPrefix(s[1..], m);
        var k := |FilterEq(s[1..], m)|;
        assert s[..k + 1] == [s[0]] + s[1..][..k];
      } else {
        FilterEqNone(s, m);
      }
    }
  }

  lemma {:induction false} CountOfValues(c: Tally, v: nat)
    ensures CountOf(Values(c), v) == |FilterEq(c, v)|
  {
    if c != [] {
      CountOfValues(c[1..], v);
      assert Values(c)[1..] == Values(c[1..]);
    }
  }

  lemma {:induction false} FilterEqMembers(c: Tally, v: nat)
    ensures forall e :: e in FilterEq(c, v) <==> e in c && e.1 == v
  {
    if c != [] {
      FilterEqMembers(c[1..], v);
      assert c == [c[0]] + c[1..];
      forall e ensures e in c <==> e == c[0] || e in c[1..] {}
    }
  }

  /** Two different entries with count v both survive the filter. */
  lemma {:induction false} FilterEqTwo(c: Tally, v: nat, i: nat, j: nat)
    requires i < j < |c| && c[i].1 == v && c[j].1 == v
    ensures |FilterEq(c, v)| >= 2
  {
    if i == 0 {
      FilterEqMembers(c[1..], v);
      assert c[1..][j - 1] == c[j];
    } else {
      assert c[1..][i - 1] == c[i] && c[1..][j - 1] == c[j];
      FilterEqTwo(c[1..], v, i - 1, j - 1);
    }
  }

  /** The only entry with count v is the whole filter. */
  lemma {:induction false} FilterEqOne(c: Tally, v: nat, i: nat)
    requires i < |c| && c[i].1 == v
    requires forall j :: 0 <= j < |c| && j != i ==> c[j].1 != v
    ensures FilterEq(c, v) == [c[i]]
  {
    if i == 0 {
      forall j | 0 <= j < |c[1..]| ensures c[1..][j].1 != v {
        assert c[1..][j] == c[j + 1];
      }
      FilterEqNone(c[1..], v);
    } else {
      forall j | 0 <= j < |c[1..]| && j != i - 1 ensures c[1..][j].1 != v {
        assert c[1..][j] == c[j + 1];
      }
      FilterEqOne(c[1..], v, i - 1);
    }
  }

  /**
   * get_most_common: `c.most_common(freq_list.count(max(freq_list)))`;
   * an empty Counter makes `max` raise ValueError.
   */
  function GetMostCommon(c: Tally): (r: Result<Tally>)
    ensures c == [] <==> r == Err(ValueError)
    ensures c != [] ==> r == Ok(FilterEq(c, MaxOf(Values(c))))
  {
    var freqList := Values(c);
    if freqList == [] then Err(ValueError)
    else
      var maxCnt := MaxOf(freqList);
      var total := CountOf(freqList, maxCnt);
      var s := SortByCount(c);
      SortFacts(c);
      CountOfValues(c, maxCnt);
      forall i | 0 <= i < |s| ensures s[i].1 <= maxCnt {
        assert s[i] in c;
        var j :| 0 <= j < |c| && c[j] == s[i];
        assert freqList[j] == c[j].1;
      }
      SortedPrefix(s, maxCnt);
      Ok(MostCommon(c, total))
  }

  /** There is one most common key, `k`: it occurs, and every other key occurs less often. */
  ghost predicate UniqueMax(ks: seq<Name>, k: Name) {
    Occ(ks, k) > 0 && forall k' :: k' != k ==> Occ(ks, k') < Occ(ks, k)
  }

  /** A single most common entry is the unique most common key with its number of occurrences. */
  lemma SingleEntryIsUniqueMax(ks: seq<Name>)
    requires ks != [] && |GetMostCommon(TallyOf(ks)).value| == 1
    ensures UniqueMax(ks, GetMostCommon(TallyOf(ks)).value[0].0)
    ensures GetMostCommon(TallyOf(ks)).value[0].1 == Occ(ks, GetMostCommon(TallyOf(ks)).value[0].0)
  {
    TallyCounts(ks);
    var c := TallyOf(ks);
    var vals := Values(c);
    var m := MaxOf(vals);
    var mc := GetMostCommon(c).value;
    assert mc == FilterEq(c, m);
    FilterEqMembers(c, m);
    var e := mc[0];
    assert e in mc;
    var i :| 0 <= i < |c| && c[i] == e;
    assert Get(c, e.0) == e.1;
    forall k' | k' != e.0 ensures Occ(ks, k') < Occ(ks, e.0) {
      var j := IndexOf(c, k');
      if j >= 0 {
        assert vals[j] == c[j].1;
        if c[j].1 == m {
          if i < j { FilterEqTwo(c, m, i, j); } else { FilterEqTwo(c, m, j, i); }
        }
      } else {
        assert c[i].1 >= 1;
      }
    }
  }

  /** A unique most common key is the single entry most-common returns. */
  lemma UniqueMaxIsSingleEntry(ks: seq<Name>, k: Name)
    requires ks != [] && UniqueMax(ks, k)
    ensures |GetMostCommon(TallyOf(ks)).value| == 1
    ensures GetMostCommon(TallyOf(ks)).value[0].0 == k
  {
    TallyCounts(ks);
    var c := TallyOf(ks);
    assert c != [];
    var vals := Values(c);
    var m := MaxOf(vals);
    assert GetMostCommon(c) == Ok(FilterEq(c, m));
    var i := IndexOf(c, k);
    assert Get(c, k) == Occ(ks, k);
    assert i >= 0;
    forall j | 0 <= j < |c| && j != i ensures c[j].1 < c[i].1 {
      assert c[j].0 != c[i].0;
      assert Get(c, c[j].0) == c[j].1;
      assert Occ(ks, c[j].0) < Occ(ks, k);
    }
    var w :| 0 <= w < |c| && vals[w] == m;
    assert vals[i] == c[i].1;
    assert m == c[i].1;
    FilterEqOne(c, m, i);
  }

  /**
   * For a Counter filled from `ks`, most-common returns a single entry
   * exactly when there is a unique most common key, and that entry is the
   * key with its number of occurrences.
   */
  lemma SingleMostCommon(ks: seq<Name>, k: Name)
    requires ks != []
    ensures
      var mc := GetMostCommon(TallyOf(ks)).value;
      UniqueMax(ks, k) <==> |mc| == 1 && mc[0].0 == k
    ensures
      var mc := GetMostCommon(TallyOf(ks)).value;
      |mc| == 1 ==> mc[0].1 == Occ(ks, mc[0].0)
  {
    TallyCounts(ks);
    if |GetMostCommon(TallyOf(ks)).value| == 1 {
      SingleEntryIsUniqueMax(ks);
    }
    if UniqueMax(ks, k) {
      UniqueMaxIsSingleEntry(ks, k);
    }
  }
}
