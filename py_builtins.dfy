/**
 * The Python and numpy built-ins the backend leans on, stated over exact
 * values: list slicing with negative bounds, `np.mean` over a list of
 * floats (here reals), and `round(x, n)`.
 */
module PyBuiltins {

  /** Python's `None` / a value. */
  datatype Option<+T> = None | Some(value: T)

  function Min(a: int, b: int): int { if a <= b then a else b }

  function Max(a: int, b: int): int { if a <= b then b else a }

  function MaxReal(a: real, b: real): (m: real)
    ensures m >= a && m >= b && (m == a || m == b)
  {
    if a <= b then b else a
  }

  // ---------------------------------------------------------------------
  // Slicing
  // ---------------------------------------------------------------------

  /**
   * Where a slice bound `i` lands in a list of length `n`: a negative
   * bound counts from the end, and either kind is clamped to `[0, n]`.
   */
  function SliceBound(n: nat, i: int): (b: nat)
    ensures b <= n
  {
    if i < 0 then Max(n + i, 0) else Min(i, n)
  }

  /**
   * Python's `s[i:]`: the tail of `s` that starts where `i` lands, so a
   * non-negative `i` drops the first `i` elements and a negative `i` keeps
   * the last `-i` (both clamped to the list).
   */
  function SliceFrom<T>(s: seq<T>, i: int): (r: seq<T>)
    ensures |r| <= |s| && r == s[|s| - |r|..]
    ensures i >= 0 ==> |r| == Max(|s| - i, 0)
    ensures i < 0 ==> |r| == Min(-i, |s|)
  {
    s[SliceBound(|s|, i)..]
  }

  /**
   * Python's `s[i:j]`: the contiguous block from where `i` lands to where
   * `j` lands, empty when the start lands at or after the stop.
   */
  function Slice<T>(s: seq<T>, i: int, j: int): (r: seq<T>)
    ensures |r| == Max(SliceBound(|s|, j) - SliceBound(|s|, i), 0)
    ensures |r| <= |s|
    ensures r == s[SliceBound(|s|, i)..SliceBound(|s|, i) + |r|]
  {
    var lo, hi := SliceBound(|s|, i), SliceBound(|s|, j);
    if lo <= hi then s[lo..hi] else []
  }

  /**
   * `s[-k:]` for every integer `k`: the last `min(k, |s|)` elements when
   * `k > 0`, the whole list when `k == 0` (because `-0 == 0`), and the list
   * without its first `min(-k, |s|)` elements when `k < 0`.
   */
  lemma NegativeStartSlice<T>(s: seq<T>, k: int)
    ensures k > 0 ==> |SliceFrom(s, -k)| == Min(k, |s|)
    ensures k == 0 ==> SliceFrom(s, -k) == s
    ensures k < 0 ==> SliceFrom(s, -k) == s[Min(-k, |s|)..]
  {
  }

  /**
   * For `0 < b < a`, `s[-a:-b]` is the block of at most `a - b` elements
   * that ends exactly `b` elements before the end of `s` (empty if `s` has
   * no more than `b` elements).
   */
  lemma NegativeWindowSlice<T>(s: seq<T>, a: nat, b: nat)
    requires 0 < b < a
    ensures |s| > b ==> Slice(s, -(a as int), -(b as int)) == s[Max(|s| - a, 0)..|s| - b]
    ensures |s| > b ==> |Slice(s, -(a as int), -(b as int))| == Min(a - b, |s| - b)
    ensures |s| <= b ==> Slice(s, -(a as int), -(b as int)) == []
  {
  }

  // ---------------------------------------------------------------------
  // np.mean
  // ---------------------------------------------------------------------

  /**
   * The sum of a list. Over exact reals the order in which the elements are
   * added does not matter (`SumConcat`), so this single definition stands
   * for numpy's pairwise summation as well as a running total.
   */
  function Sum(xs: seq<real>): (total: real)
  {
    if xs == [] then 0.0 else Sum(xs[..|xs| - 1]) + xs[|xs| - 1]
  }

  /** Summing two parts separately and adding the results gives the sum of the whole. */
  lemma {:induction false} SumConcat(a: seq<real>, b: seq<real>)
    ensures Sum(a + b) == Sum(a) + Sum(b)
  {
    if b == [] {
      assert a + b == a;
    } else {
      var ab := a + b;
      assert ab[..|ab| - 1] == a + b[..|b| - 1];
      SumConcat(a, b[..|b| - 1]);
    }
  }

  /** `np.mean` of a non-empty list: a list of equal values has that value as its mean. */
  function Mean(xs: seq<real>): (m: real)
    requires |xs| > 0
    ensures (forall i :: 0 <= i < |xs| ==> xs[i] == xs[0]) ==> m == xs[0]
  {
    ConstantSum(xs);
    Sum(xs) / (|xs| as real)
  }

  /** A sum of `n` equal values is `n` times that value. */
  lemma ConstantSum(xs: seq<real>)
    requires |xs| > 0
    ensures (forall i :: 0 <= i < |xs| ==> xs[i] == xs[0]) ==> Sum(xs) == (|xs| as real) * xs[0]
  {
    if forall i :: 0 <= i < |xs| ==> xs[i] == xs[0] {
      SumBounds(xs, xs[0], xs[0]);
    }
  }

  /** A sum of values that all lie in `[lo, hi]` lies in `[n lo, n hi]`. */
  lemma {:induction false} SumBounds(xs: seq<real>, lo: real, hi: real)
    requires forall i :: 0 <= i < |xs| ==> lo <= xs[i] <= hi
    ensures (|xs| as real) * lo <= Sum(xs) <= (|xs| as real) * hi
  {
    if xs != [] {
      var init := xs[..|xs| - 1];
      assert forall i :: 0 <= i < |init| ==> init[i] == xs[i];
      SumBounds(init, lo, hi);
      assert (|xs| as real) * lo == (|init| as real) * lo + lo;
      assert (|xs| as real) * hi == (|init| as real) * hi + hi;
    }
  }

  /** The mean of values that all lie in `[lo, hi]` lies in `[lo, hi]`. */
  lemma MeanBounds(xs: seq<real>, lo: real, hi: real)
    requires |xs| > 0
    requires forall i :: 0 <= i < |xs| ==> lo <= xs[i] <= hi
    ensures lo <= Mean(xs) <= hi
  {
    SumBounds(xs, lo, hi);
    var n := |xs| as real;
    DivideMonotonic(n * lo, Sum(xs), n);
    DivideMonotonic(Sum(xs), n * hi, n);
    assert (n * lo) / n == lo;
    assert (n * hi) / n == hi;
  }

  // ---------------------------------------------------------------------
  // round(x, n)
  // ---------------------------------------------------------------------

  function Pow10(d: nat): (p: nat)
    ensures p >= 1
  {
    if d == 0 then 1 else 10 * Pow10(d - 1)
  }

  /** `r` is a whole multiple of `1 / scale`. */
  predicate IsMultipleOf(r: real, scale: real)
  {
    (r * scale).Floor as real == r * scale
  }

  /**
   * `round(x, digits)`: the multiple of `10^-digits` nearest to `x`, ties
   * upwards; it is the only such multiple in `(x - u/2, x + u/2]` for the
   * unit `u = 10^-digits`.
   */
  function RoundTo(x: real, digits: nat): (r: real)
    ensures IsMultipleOf(r, Pow10(digits) as real)
    ensures x - 0.5 / (Pow10(digits) as real) < r <= x + 0.5 / (Pow10(digits) as real)
  {
    RoundToUnit(x, Pow10(digits) as real)
  }

  /** The nearest multiple of `1 / scale`, ties upwards. */
  function RoundToUnit(x: real, scale: real): (r: real)
    requires scale > 0.0
    ensures IsMultipleOf(r, scale)
    ensures x - 0.5 / scale < r <= x + 0.5 / scale
  {
    var k := (x * scale + 0.5).Floor;
    WholeMultiple(k, scale);
    HalfUnitBounds(x, scale, k);
    (k as real) / scale
  }

  lemma WholeMultiple(k: int, p: real)
    requires p > 0.0
    ensures IsMultipleOf((k as real) / p, p)
  {
    assert (k as real) / p * p == k as real;
    assert (k as real).Floor == k;
  }

  lemma HalfUnitBounds(x: real, p: real, k: int)
    requires p > 0.0
    requires (k as real) <= x * p + 0.5 < (k as real) + 1.0
    ensures x - 0.5 / p < (k as real) / p <= x + 0.5 / p
  {
    assert (k as real) / p <= (x * p + 0.5) / p;
    assert (x * p + 0.5) / p == x + 0.5 / p;
    assert (x * p - 0.5) / p == x - 0.5 / p;
  }

  /** Rounding keeps the sign of a non-negative value. */
  lemma RoundToNonNegative(x: real, digits: nat)
    requires x >= 0.0
    ensures RoundTo(x, digits) >= 0.0
  {
  }

  /** Rounding is monotonic. */
  lemma RoundToMonotonic(x: real, y: real, digits: nat)
    requires x <= y
    ensures RoundTo(x, digits) <= RoundTo(y, digits)
  {
    UnitMonotonic(x, y, Pow10(digits) as real);
  }

  /** A value that already has at most `digits` decimals rounds to itself. */
  lemma RoundToExact(x: real, digits: nat, m: int)
    requires x * (Pow10(digits) as real) == m as real
    ensures RoundTo(x, digits) == x
  {
    UnitExact(x, Pow10(digits) as real, m);
  }

  lemma UnitMonotonic(x: real, y: real, p: real)
    requires x <= y && p >= 1.0
    ensures RoundToUnit(x, p) <= RoundToUnit(y, p)
  {
    ScaleMonotonic(x, y, p);
    var fx, fy := (x * p + 0.5).Floor, (y * p + 0.5).Floor;
    assert fx <= fy;
    DivideMonotonic(fx as real, fy as real, p);
  }

  lemma UnitExact(x: real, p: real, m: int)
    requires p >= 1.0 && x * p == m as real
    ensures RoundToUnit(x, p) == x
  {
    assert (x * p + 0.5).Floor == m;
    assert (m as real) / p == x;
  }

  lemma ScaleMonotonic(x: real, y: real, p: real)
    requires x <= y && p > 0.0
    ensures x * p <= y * p
  {
  }

  lemma DivideMonotonic(a: real, b: real, p: real)
    requires a <= b && p > 0.0
    ensures a / p <= b / p
  {
  }

}
