/**
 * JavaScript number semantics the rest of the model relies on.
 * Measurements are exact `real`s: IEEE-754 representation error is not modelled,
 * but the rounding operators (`Math.floor`, `Math.round`, truncating `%`) are.
 */
module Js {

  datatype Option<T> = None | Some(value: T)

  /** `x ?? 0` for a nullable number. */
  function OrZero(x: Option<real>): (r: real)
    ensures x.Some? ==> r == x.value
    ensures x.None? ==> r == 0.0
  {
    if x.Some? then x.value else 0.0
  }

  /** JavaScript `a || b` on strings. */
  function Or(a: string, b: string): (r: string)
    ensures a != "" ==> r == a
    ensures a == "" ==> r == b
  {
    if a != "" then a else b
  }

  /** A JavaScript number as read from JSON, a query or the database:
      absent (`null`/`undefined`), `NaN`, or a finite value. */
  datatype JsNumber = Missing | NaN | Num(v: real)

  /** `Math.floor`. */
  function Floor(x: real): (r: int)
    ensures r as real <= x < r as real + 1.0
  {
    x.Floor
  }

  /** `Math.round`: the nearest integer, halves going towards +infinity. */
  function Round(x: real): (r: int)
    ensures r as real - 0.5 <= x < r as real + 0.5
  {
    (x + 0.5).Floor
  }

  /** `Math.trunc`: drops the fraction, towards zero. */
  function Trunc(x: real): (r: int)
    ensures 0.0 <= x ==> r as real <= x < r as real + 1.0
    ensures x < 0.0 ==> r as real - 1.0 < x <= r as real
  {
    if x >= 0.0 then x.Floor else -((-x).Floor)
  }

  /** `Math.abs`. */
  function Abs(x: real): (r: real)
    ensures 0.0 <= r && (r == x || r == -x)
  {
    if x < 0.0 then -x else x
  }

  /** JavaScript `%` on numbers: the remainder takes the sign of the dividend. */
  function Mod(x: real, y: real): (r: real)
    requires y > 0.0
    ensures 0.0 <= x ==> 0.0 <= r < y
    ensures x < 0.0 ==> -y < r <= 0.0
  {
    var d := x / y;
    var t := Trunc(d) as real;
    ModBounds(x, y, d, t);
    x - y * t
  }

  lemma ModBounds(x: real, y: real, d: real, t: real)
    requires y > 0.0 && d == x / y
    requires 0.0 <= d ==> t <= d < t + 1.0
    requires d < 0.0 ==> t - 1.0 < d <= t
    ensures 0.0 <= x ==> 0.0 <= x - y * t < y
    ensures x < 0.0 ==> -y < x - y * t <= 0.0
  {
    DivideBounds(x, y, 0.0, 0.0);
    Distribute(x, y, d, t);
    if 0.0 <= x {
      ScaleFraction(y, d - t, x - y * t);
    } else {
      ScaleNegativeFraction(y, d - t, x - y * t);
    }
  }

  lemma Distribute(x: real, y: real, d: real, t: real)
    requires y > 0.0 && d == x / y
    ensures x - y * t == y * (d - t)
  {
    assert d * y == x;
  }

  lemma ScaleFraction(y: real, f: real, r: real)
    requires y > 0.0 && r == y * f && 0.0 <= f < 1.0
    ensures 0.0 <= r < y
  {
    assert y - r == y * (1.0 - f);
    assert y * (1.0 - f) > 0.0;
  }

  lemma ScaleNegativeFraction(y: real, f: real, r: real)
    requires y > 0.0 && r == y * f && -1.0 < f <= 0.0
    ensures -y < r <= 0.0
  {
    assert y + r == y * (1.0 + f);
    assert y * (1.0 + f) > 0.0;
    assert -r == y * -f;
  }

  lemma MulPos(a: real, b: real)
    requires a > 0.0 && b > 0.0
    ensures a * b > 0.0
  {
  }

  lemma MulNonNeg(a: real, b: real)
    requires a >= 0.0 && b >= 0.0
    ensures a * b >= 0.0
  {
  }

  /** Cross-multiplication for a positive divisor. */
  lemma DivideBounds(t: real, n: real, lo: real, hi: real)
    requires n > 0.0
    ensures n * lo <= t ==> lo <= t / n
    ensures t <= n * hi ==> t / n <= hi
    ensures n * lo < t ==> lo < t / n
    ensures t < n * hi ==> t / n < hi
  {
    var q := t / n;
    assert q * n == t;
    assert (q - lo) * n == t - n * lo;
    assert (hi - q) * n == n * hi - t;
  }

  /** `Math.floor(x / k)` of a non-negative `x` only depends on the integer part of `x`. */
  lemma FloorDiv(x: real, k: nat)
    requires 0.0 <= x && k > 0
    ensures Floor(x / k as real) == Floor(x) / k
  {
    var n := Floor(x);
    var q := n / k;
    var kr := k as real;
    assert q * k <= n < q * k + k;
    assert (q as real) * kr <= x < (q as real) * kr + kr;
    DivideBounds(x, kr, q as real, q as real + 1.0);
  }

  /** For non-negative `x`, `x % k` differs from `Math.floor(x) % k` by the fraction of `x` only. */
  lemma ModIntegerPart(x: real, k: nat)
    requires 0.0 <= x && k > 0
    ensures Floor(Mod(x, k as real)) == Floor(x) % k
    ensures Mod(x, k as real) == (Floor(x) % k) as real + (x - Floor(x) as real)
  {
    FloorDiv(x, k);
  }

  /** `xs.reduce((a, b) => a + b, 0)`. */
  function Sum(xs: seq<real>): real
  {
    if xs == [] then 0.0 else Sum(xs[..|xs| - 1]) + xs[|xs| - 1]
  }

  /** `Sum(xs) / xs.length`, or `None` (JavaScript `null`) for no values. */
  function Mean(xs: seq<real>): (r: Option<real>)
    ensures r.None? <==> xs == []
  {
    if xs == [] then None else Some(Sum(xs) / |xs| as real)
  }

  lemma {:induction false} SumBounds(xs: seq<real>, lo: real, hi: real)
    requires forall i :: 0 <= i < |xs| ==> lo <= xs[i] <= hi
    ensures |xs| as real * lo <= Sum(xs) <= |xs| as real * hi
  {
    if xs != [] {
      SumBounds(xs[..|xs| - 1], lo, hi);
    }
  }

  /** A mean lies between the least and the greatest of its values. */
  lemma MeanBounds(xs: seq<real>, lo: real, hi: real)
    requires xs != [] && forall i :: 0 <= i < |xs| ==> lo <= xs[i] <= hi
    ensures lo <= Mean(xs).value <= hi
  {
    SumBounds(xs, lo, hi);
    DivideBounds(Sum(xs), |xs| as real, lo, hi);
  }
}
