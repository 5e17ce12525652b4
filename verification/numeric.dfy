/** Numeric primitives shared by the image pipeline: the JavaScript rounding
    and clamping operations the source relies on, stated over Dafny's exact
    reals and integers. */
module Numeric {

  /** `Math.max(lo, Math.min(hi, x))`. */
  function Clamp(x: real, lo: real, hi: real): (r: real)
    requires lo <= hi
    ensures lo <= r <= hi
    ensures lo <= x <= hi ==> r == x
    ensures x < lo ==> r == lo
    ensures x > hi ==> r == hi
  {
    if x < lo then lo else if x > hi then hi else x
  }

  function Abs(x: real): (r: real)
    ensures r >= 0.0
    ensures r == x || r == -x
  {
    if x < 0.0 then -x else x
  }

  function AbsInt(x: int): (r: nat)
    ensures r == x || r == -x
  {
    if x < 0 then -x else x
  }

  function Max(a: real, b: real): (r: real)
    ensures r >= a && r >= b
    ensures r == a || r == b
  {
    if a >= b then a else b
  }

  /** JavaScript `Math.round`: the nearest integer, halves rounded up. */
  function JsRound(x: real): (r: int)
    ensures x - 0.5 < r as real <= x + 0.5
  {
    (x + 0.5).Floor
  }

  /** `r` is a byte a `Uint8ClampedArray` may hold for `x`: saturated at
      either end and within half a unit of `x` in between. */
  predicate StoredAs(x: real, r: int) {
    && 0 <= r <= 255
    && (x <= 0.0 ==> r == 0)
    && (x >= 255.0 ==> r == 255)
    && (0.0 <= x <= 255.0 ==> x - 0.5 <= r as real <= x + 0.5)
  }

  /** Storing a number into a `Uint8ClampedArray` element: values at or
      below 0 become 0, values at or above 255 become 255, and everything
      in between is rounded to the nearest integer with ties to even. */
  function StoreByte(x: real): (r: int)
    ensures StoredAs(x, r)
  {
    if x <= 0.0 then 0
    else if x >= 255.0 then 255
    else
      var f := x.Floor;
      if f as real + 0.5 < x then f + 1
      else if x < f as real + 0.5 then f
      else if f % 2 == 0 then f
      else f + 1
  }

  predicate IsByte(v: int) {
    0 <= v <= 255
  }

  /** A byte stored again is left as it is. */
  lemma StoreByteOfByte(v: int)
    requires IsByte(v)
    ensures StoreByte(v as real) == v
  {
  }

  /** Storing is monotone: a larger number never stores a smaller byte. */
  lemma {:induction false} StoreByteMonotone(x: real, y: real)
    requires x <= y
    ensures StoreByte(x) <= StoreByte(y)
  {
    if 0.0 < x && y < 255.0 {
      var fx, fy := x.Floor, y.Floor;
      assert fx <= fy;
      if fx == fy {
        if fx as real + 0.5 < x {
          assert fx as real + 0.5 < y;
        } else if x == fx as real + 0.5 {
          assert !(y < fy as real + 0.5);
        }
      } else {
        assert fx + 1 <= fy;
      }
    }
  }

  /** JavaScript `Math.round` is monotone. */
  lemma JsRoundMonotone(x: real, y: real)
    requires x <= y
    ensures JsRound(x) <= JsRound(y)
  {
  }

  function SeqMax(xs: seq<real>): (m: real)
    requires |xs| > 0
    ensures m in xs
    ensures forall i :: 0 <= i < |xs| ==> xs[i] <= m
  {
    if |xs| == 1 then xs[0]
    else
      var rest := SeqMax(xs[1..]);
      assert forall i :: 1 <= i < |xs| ==> xs[i] == xs[1..][i - 1];
      if xs[0] >= rest then xs[0] else rest
  }

  function SeqMin(xs: seq<real>): (m: real)
    requires |xs| > 0
    ensures m in xs
    ensures forall i :: 0 <= i < |xs| ==> m <= xs[i]
  {
    if |xs| == 1 then xs[0]
    else
      var rest := SeqMin(xs[1..]);
      assert forall i :: 1 <= i < |xs| ==> xs[i] == xs[1..][i - 1];
      if xs[0] <= rest then xs[0] else rest
  }

  /** Two bounds on a quotient by a positive count. */
  lemma QuotientBounds(t: real, n: real, lo: real, hi: real)
    requires n > 0.0
    requires lo * n <= t <= hi * n
    ensures lo <= t / n <= hi
  {
    assert t / n * n == t;
  }

  /** Multiplying by a positive number and dividing by it again. */
  lemma ProductQuotient(b: real, m: real)
    requires m > 0.0
    ensures m * b / m == b
  {
  }

  /** How a quotient by a positive number compares with 0 and 1. */
  lemma QuotientSign(a: real, b: real)
    requires b > 0.0
    ensures a > 0.0 ==> a / b > 0.0
    ensures a > b ==> a / b > 1.0
    ensures a < b ==> a / b < 1.0
    ensures a == b ==> a / b == 1.0
  {
    assert a / b * b == a;
  }

  lemma ClampMonotone(x: real, y: real, lo: real, hi: real)
    requires x <= y && lo <= hi
    ensures Clamp(x, lo, hi) <= Clamp(y, lo, hi)
  {
  }

  lemma ScaleMonotone(f: real, a: real, b: real)
    requires f >= 0.0 && a <= b
    ensures f * a <= f * b
  {
    assert f * b - f * a == f * (b - a);
  }

  /** Dividing by a positive number keeps the order, both ways. */
  lemma DivOrder(a: real, b: real, m: real)
    requires m > 0.0
    ensures a <= b <==> a / m <= b / m
  {
    var x, y := a / m, b / m;
    assert x * m == a && y * m == b;
    assert b - a == m * (y - x);
    if y - x > 0.0 {
      ProductPositive(m, y - x);
    } else if y - x < 0.0 {
      ProductPositive(m, x - y);
      assert a - b == m * (x - y);
    }
  }

  lemma ProductPositive(a: real, b: real)
    requires a > 0.0 && b > 0.0
    ensures a * b > 0.0
  {
    ScaleMonotone(a, 0.0, b);
    assert a * b != 0.0;
  }

  /** Squaring keeps the strict order of non-negative numbers. */
  lemma SquareLess(a: real, b: real)
    requires 0.0 <= a < b
    ensures a * a < b * b
  {
    assert b * b - a * a == (b - a) * (b + a);
    ProductPositive(b - a, b + a);
  }
}
