/**
 * The pieces of Python's value semantics that the conflation scripts rely on:
 * nullable cursor values, `str.startswith`, substring `in`, slicing that never
 * raises, truthiness, `round`, `sum`, `abs`, and dictionaries filled by
 * assignment in a loop (the last assignment to a key wins).
 */
module Py {

  datatype Option<+T> = None | Some(value: T)

  /** The exceptions the modelled code can raise and does not catch. */
  datatype PyError = ValueError | KeyError | TypeError | ZeroDivisionError

  datatype Result<+T> = Ok(value: T) | Err(error: PyError)

  /** A route name as read from a feature class: a string, or null. */
  type Name = Option<string>

  /** A measure (mile point) as read from a feature class: a number, or null. */
  type Msr = Option<real>

  // ---------------------------------------------------------------- strings

  /** `s.startswith(prefix)` */
  predicate StartsWith(s: string, prefix: string) {
    |prefix| <= |s| && s[..|prefix|] == prefix
  }

  /** `sub in s` for two strings. */
  predicate Contains(s: string, sub: string)
    decreases |s|
  {
    StartsWith(s, sub) || (|s| > 0 && Contains(s[1..], sub))
  }

  /** `s[i:j]` for non-negative bounds: out-of-range bounds are clipped, never an error. */
  function Slice(s: string, i: nat, j: nat): (r: string)
    ensures i <= j <= |s| ==> r == s[i..j]
    ensures i <= |s| <= j ==> r == s[i..]
    ensures |s| <= i || j <= i ==> r == ""
  {
    var lo := if i <= |s| then i else |s|;
    var hi := if j <= |s| then j else |s|;
    if lo <= hi then s[lo..hi] else ""
  }

  /** A name can start with at most one of two prefixes of equal length that differ. */
  lemma StartsWithBoth(s: string, p: string, q: string)
    requires |p| == |q| && p != q
    ensures !(StartsWith(s, p) && StartsWith(s, q))
  {
  }

  /** `s in (list of strings)` for a possibly null name: None is never a member. */
  predicate InList(n: Name, list: seq<string>) {
    n.Some? && n.value in list
  }

  // ------------------------------------------------------------- truthiness

  /** `if x:` for a nullable number: None and zero are false. */
  predicate TruthyNumber(x: Msr) {
    x.Some? && x.value != 0.0
  }

  /** `if x:` for a nullable string: None and the empty string are false. */
  predicate TruthyName(n: Name) {
    n.Some? && n.value != ""
  }

  // ---------------------------------------------------------------- numbers

  function Abs(x: real): (r: real)
    ensures r >= 0.0 && (r == x || r == -x)
  {
    if x < 0.0 then -x else x
  }

  function Max(a: real, b: real): (r: real)
    ensures r >= a && r >= b && (r == a || r == b)
  {
    if a < b then b else a
  }

  function Min(a: real, b: real): (r: real)
    ensures r <= a && r <= b && (r == a || r == b)
  {
    if a < b then a else b
  }

  /** Python's `round(x)`: the nearest integer, ties to the even one. */
  function RoundHalfEven(x: real): (r: int)
    ensures -0.5 <= r as real - x <= 0.5
    ensures (r as real - x == 0.5 || x - r as real == 0.5) ==> r % 2 == 0
  {
    var f := x.Floor;
    var frac := x - f as real;
    if frac < 0.5 then f
    else if frac > 0.5 then f + 1
    else if f % 2 == 0 then f
    else f + 1
  }

  lemma RoundNonNegative(x: real)
    requires x >= 0.0
    ensures RoundHalfEven(x) >= 0
  {
  }

  function Pow10(digits: nat): (r: nat)
    ensures r >= 1
  {
    if digits == 0 then 1 else 10 * Pow10(digits - 1)
  }

  /** Python's `round(x, digits)` on the exact value of `x`. */
  function RoundTo(x: real, digits: nat): (r: real)
    ensures -0.5 / Pow10(digits) as real <= r - x <= 0.5 / Pow10(digits) as real
  {
    ScaledRoundBound(x, Pow10(digits));
    Unscale(RoundHalfEven(Scale(x, Pow10(digits))), Pow10(digits))
  }

  /** `x * 10**digits` */
  function Scale(x: real, p: nat): real {
    x * p as real
  }

  /** `n / 10**digits` */
  function Unscale(n: int, p: nat): real
    requires p >= 1
  {
    n as real / p as real
  }

  lemma ScaledRoundBound(x: real, p: nat)
    requires p >= 1
    ensures -0.5 / p as real <= Unscale(RoundHalfEven(Scale(x, p)), p) - x <= 0.5 / p as real
  {
    var n := RoundHalfEven(Scale(x, p)) as real;
    var q := p as real;
    assert n / q - x == (n - x * q) / q;
    ScaleBound(n - x * q, q);
  }

  lemma ScaleBound(d: real, p: real)
    requires p > 0.0 && -0.5 <= d <= 0.5
    ensures -0.5 / p <= d / p <= 0.5 / p
  {
    assert d / p * p == d;
    assert 0.5 / p * p == 0.5;
  }

  /** Python's `round` never decreases when its argument grows. */
  lemma RoundHalfEvenMonotone(x: real, y: real)
    requires x <= y
    ensures RoundHalfEven(x) <= RoundHalfEven(y)
  {
    var fx, fy := x.Floor, y.Floor;
    assert fx <= fy;
    if fx == fy {
      assert x - fx as real <= y - fy as real;
    }
  }

  lemma RoundToMonotone(x: real, y: real, digits: nat)
    requires x <= y
    ensures RoundTo(x, digits) <= RoundTo(y, digits)
  {
    var p := Pow10(digits);
    ScaleMonotone(x, y, p as real);
    RoundHalfEvenMonotone(Scale(x, p), Scale(y, p));
    DivideMonotone(RoundHalfEven(Scale(x, p)) as real, RoundHalfEven(Scale(y, p)) as real, p as real);
  }

  lemma ScaleMonotone(x: real, y: real, p: real)
    requires x <= y && p > 0.0
    ensures x * p <= y * p
  {
    assert y * p - x * p == (y - x) * p;
  }

  lemma DivideMonotone(x: real, y: real, p: real)
    requires x <= y && p > 0.0
    ensures x / p <= y / p
  {
    assert y / p - x / p == (y - x) / p;
  }

  /** `sum(xs)` over integers. */
  function SumInt(xs: seq<int>): int {
    if xs == [] then 0 else SumInt(xs[..|xs| - 1]) + xs[|xs| - 1]
  }

  /** `sum(xs)`, adding from the left. */
  function Sum(xs: seq<real>): real {
    if xs == [] then 0.0 else Sum(xs[..|xs| - 1]) + xs[|xs| - 1]
  }

  lemma {:induction false} SumNonNegative(xs: seq<real>)
    requires forall i :: 0 <= i < |xs| ==> xs[i] >= 0.0
    ensures Sum(xs) >= 0.0
  {
    if xs != [] {
      SumNonNegative(xs[..|xs| - 1]);
    }
  }

  // ---------------------------------------------------------- dictionaries

  /**
   * The dictionary left by `d[k] = v` for each pair in order, starting from
   * `d = {}` (also a dict comprehension over a cursor): a later pair for the
   * same key overwrites an earlier one.
   */
  function DictFromPairs<K, V>(pairs: seq<(K, V)>): (d: map<K, V>)
    ensures d.Keys == set i | 0 <= i < |pairs| :: pairs[i].0
  {
    if pairs == [] then map[]
    else
      var last := pairs[|pairs| - 1];
      var prefix := pairs[..|pairs| - 1];
      var d := DictFromPairs(prefix)[last.0 := last.1];
      assert d.Keys == (set i | 0 <= i < |prefix| :: prefix[i].0) + {last.0};
      assert (set i | 0 <= i < |pairs| :: pairs[i].0) ==
        (set i | 0 <= i < |prefix| :: prefix[i].0) + {last.0} by {
        forall i | 0 <= i < |pairs| ensures pairs[i].0 in (set i | 0 <= i < |prefix| :: prefix[i].0) + {last.0} {
          if i < |prefix| {
            assert prefix[i] == pairs[i];
          }
        }
        forall i | 0 <= i < |prefix| ensures prefix[i].0 in (set i | 0 <= i < |pairs| :: pairs[i].0) {
          assert prefix[i] == pairs[i];
        }
      }
      d
  }

  /** The value stored under a key is that of the LAST pair with that key. */
  lemma {:induction false} DictFromPairsLastWins<K, V>(pairs: seq<(K, V)>, i: nat)
    requires i < |pairs|
    requires forall j :: i < j < |pairs| ==> pairs[j].0 != pairs[i].0
    ensures pairs[i].0 in DictFromPairs(pairs)
    ensures DictFromPairs(pairs)[pairs[i].0] == pairs[i].1
  {
    var prefix := pairs[..|pairs| - 1];
    if i < |pairs| - 1 {
      assert prefix[i] == pairs[i];
      forall j | i < j < |prefix| ensures prefix[j].0 != prefix[i].0 {
        assert prefix[j] == pairs[j];
      }
      DictFromPairsLastWins(prefix, i);
    }
  }

  // ------------------------------------------------------------ list building

  /** The list a loop builds by appending `f(x)` for every `x` of `s`, in order. */
  function Mapped<T, U>(f: T -> U, s: seq<T>): seq<U> {
    if s == [] then [] else Mapped(f, s[..|s| - 1]) + [f(s[|s| - 1])]
  }

  /** The built list has one entry per element, the i-th being `f(s[i])`. */
  lemma {:induction false} MappedRows<T, U>(f: T -> U, s: seq<T>)
    ensures |Mapped(f, s)| == |s|
    ensures forall i :: 0 <= i < |s| ==> Mapped(f, s)[i] == f(s[i])
  {
    if s != [] {
      var pre := s[..|s| - 1];
      MappedRows(f, pre);
      forall i | 0 <= i < |pre| ensures Mapped(f, s)[i] == f(s[i]) {
        assert pre[i] == s[i];
      }
    }
  }

  /**
   * A list built by a loop whose step may raise: the first exception
   * escapes and the list is lost, otherwise every step's value in order.
   */
  function TryMapped<T, U>(f: T -> Result<U>, s: seq<T>): Result<seq<U>> {
    if s == [] then Ok([])
    else
      match TryMapped(f, s[..|s| - 1])
      case Err(e) => Err(e)
      case Ok(pre) =>
        match f(s[|s| - 1])
        case Err(e) => Err(e)
        case Ok(x) => Ok(pre + [x])
  }

  /**
   * The loop raises exactly when some step raises, and then with the error
   * of a step that raises; otherwise the i-th value is the i-th step's.
   */
  lemma {:induction false} TryMappedRows<T, U>(f: T -> Result<U>, s: seq<T>)
    ensures TryMapped(f, s).Err? <==> exists i :: 0 <= i < |s| && f(s[i]).Err?
    ensures TryMapped(f, s).Err? ==> exists i :: 0 <= i < |s| && f(s[i]) == Err(TryMapped(f, s).error)
    ensures TryMapped(f, s).Ok? ==>
              |TryMapped(f, s).value| == |s| && forall i :: 0 <= i < |s| ==> f(s[i]) == Ok(TryMapped(f, s).value[i])
  {
    if s != [] {
      var pre := s[..|s| - 1];
      var last := |s| - 1;
      TryMappedRows(f, pre);
      assert forall i :: 0 <= i < |pre| ==> pre[i] == s[i];
      if TryMapped(f, pre).Ok? && f(s[last]).Ok? {
        var v := TryMapped(f, pre).value;
        assert TryMapped(f, s).value == v + [f(s[last]).value];
      }
    }
  }

  /** Once a prefix of the loop has raised, the whole loop raises with the same error. */
  lemma {:induction false} TryMappedStops<T, U>(f: T -> Result<U>, s: seq<T>, k: nat)
    requires k <= |s| && TryMapped(f, s[..k]).Err?
    ensures TryMapped(f, s) == TryMapped(f, s[..k])
    decreases |s| - k
  {
    if k < |s| {
      assert s[..k + 1][..k] == s[..k];
      TryMappedStops(f, s, k + 1);
    } else {
      assert s[..k] == s;
    }
  }
}
