/** Small shared vocabulary: optional values, results with an error side,
    and the numeric conversions the Python code relies on (`max`, `int()`
    truncation, and `round`/`format` to a fixed number of decimals). */
module Common {

  datatype Option<+T> = None | Some(value: T)

  datatype Result<+R, +E> = Success(value: R) | Failure(error: E)

  function MaxR(a: real, b: real): (m: real)
    ensures m >= a && m >= b
    ensures m == a || m == b
  {
    if a >= b then a else b
  }

  function MinR(a: real, b: real): (m: real)
    ensures m <= a && m <= b
    ensures m == a || m == b
  {
    if a <= b then a else b
  }

  /** Python's `int(x)` on a float: truncation toward zero. */
  function Trunc(x: real): (k: int)
    ensures x >= 0.0 ==> 0 <= k && k as real <= x < k as real + 1.0
    ensures x < 0.0 ==> k <= 0 && k as real - 1.0 < x <= k as real
  {
    if x >= 0.0 then x.Floor else -((-x).Floor)
  }

  /** Round to the nearest integer, ties to the even neighbour (the rule of
      Python's `round` and of `format` with a fixed precision). */
  function RoundHalfEven(y: real): int {
    var f := y.Floor;
    var frac := y - f as real;
    if frac < 0.5 then f
    else if frac > 0.5 then f + 1
    else if f % 2 == 0 then f
    else f + 1
  }

  /** The rounded value is a nearest integer, and the even one on a tie. */
  lemma RoundHalfEvenNearest(y: real)
    ensures y - 0.5 <= RoundHalfEven(y) as real <= y + 0.5
    ensures (RoundHalfEven(y) as real - y == 0.5 || y - RoundHalfEven(y) as real == 0.5)
            ==> RoundHalfEven(y) % 2 == 0
  {
  }

  /** `round(x, 1)` and `f"{x:.1f}"`: one decimal, ties to even. */
  function Round1(x: real): real {
    RoundHalfEven(x * 10.0) as real / 10.0
  }

  /** The one-decimal rendering is a value with one decimal, within 0.05 of
      the input, so the nearest one. */
  lemma Round1Nearest(x: real)
    ensures -0.05 <= Round1(x) - x <= 0.05
    ensures (Round1(x) * 10.0).Floor as real == Round1(x) * 10.0
  {
    var k := RoundHalfEven(x * 10.0);
    RoundHalfEvenNearest(x * 10.0);
    var r := k as real / 10.0;
    assert r == Round1(x);
    assert r * 10.0 == k as real;
    assert (k as real).Floor == k;
    assert x * 10.0 - 0.5 <= k as real <= x * 10.0 + 0.5;
  }

  /** `round(x, 2)`: two decimals, ties to even. */
  function Round2(x: real): real {
    RoundHalfEven(x * 100.0) as real / 100.0
  }

  /** The two-decimal rendering is a value with two decimals, within 0.005
      of the input. */
  lemma Round2Nearest(x: real)
    ensures -0.005 <= Round2(x) - x <= 0.005
    ensures (Round2(x) * 100.0).Floor as real == Round2(x) * 100.0
  {
    var k := RoundHalfEven(x * 100.0);
    RoundHalfEvenNearest(x * 100.0);
    var r := k as real / 100.0;
    assert r == Round2(x);
    assert r * 100.0 == k as real;
    assert (k as real).Floor == k;
    assert x * 100.0 - 0.5 <= k as real <= x * 100.0 + 0.5;
  }

  lemma RoundHalfEvenOfInt(k: int)
    ensures RoundHalfEven(k as real) == k
  {
    assert (k as real).Floor == k;
  }

  /** Rounding is monotone: it never swaps the order of two values. */
  lemma RoundHalfEvenMonotone(x: real, y: real)
    requires x <= y
    ensures RoundHalfEven(x) <= RoundHalfEven(y)
  {
    var fx, fy := x.Floor, y.Floor;
    if fx < fy {
      assert RoundHalfEven(x) <= fx + 1;
      assert RoundHalfEven(y) >= fy;
    } else {
      assert fx == fy;
      assert x - fx as real <= y - fy as real;
    }
  }

  lemma Round1Monotone(x: real, y: real)
    requires x <= y
    ensures Round1(x) <= Round1(y)
  {
    RoundHalfEvenMonotone(x * 10.0, y * 10.0);
  }

  /** A value of at least 1 still is after rounding to one decimal. */
  lemma Round1AtLeastOne(x: real)
    requires x >= 1.0
    ensures Round1(x) >= 1.0
  {
    Round1Monotone(1.0, x);
    RoundHalfEvenOfInt(10);
  }

  /** A value that already has at most two decimals is left as it is. */
  lemma Round2Exact(k: int)
    ensures Round2(k as real / 100.0) == k as real / 100.0
  {
    assert (k as real / 100.0) * 100.0 == k as real;
    RoundHalfEvenOfInt(k);
  }

  /** Storing under one key leaves the entry of any other key as it was. */
  lemma UpdateOtherKey<K, V>(m: map<K, V>, k: K, v: V, j: K)
    requires j != k
    ensures j in m[k := v] <==> j in m
    ensures j in m ==> m[k := v][j] == m[j]
  {
  }

  /** Storing under a key adds that key to the domain. */
  lemma UpdateKeys<K, V>(m: map<K, V>, k: K, v: V)
    ensures m[k := v].Keys == m.Keys + {k}
  {
  }
}
