/** Arithmetic helpers shared by the analysis stages: absolute value, min/max,
    clamping and Python's `round(x, n)` taken over exact decimals. */
module Numeric {

  function Abs(x: real): (r: real)
    ensures r >= 0.0 && (r == x || r == -x)
  {
    if x < 0.0 then -x else x
  }

  /** A Python bool counted as an int: True is 1, False is 0. */
  function Indicator(b: bool): nat {
    if b then 1 else 0
  }

  /** Python's min(a, b) and max(a, b). */
  function Min(a: real, b: real): (r: real)
    ensures r <= a && r <= b && (r == a || r == b)
  {
    if b < a then b else a
  }

  function Max(a: real, b: real): (r: real)
    ensures r >= a && r >= b && (r == a || r == b)
  {
    if b > a then b else a
  }

  /** min(hi, max(lo, x)): x pushed into [lo, hi]. */
  function Clamp(x: real, lo: real, hi: real): (r: real)
    requires lo <= hi
    ensures lo <= r <= hi
    ensures lo <= x <= hi ==> r == x
  {
    Min(hi, Max(lo, x))
  }

  lemma ClampMonotone(x: real, y: real, lo: real, hi: real)
    requires lo <= hi && x <= y
    ensures Clamp(x, lo, hi) <= Clamp(y, lo, hi)
  {
  }

  /** The integer nearest to y; when y lies halfway between two integers,
      the even one (Python 3 rounds halves to even). */
  function NearestInt(y: real): (n: int)
    ensures y - 0.5 <= n as real <= y + 0.5
    ensures (n as real == y - 0.5 || n as real == y + 0.5) ==> Even(n)
  {
    var f := y.Floor;
    var frac := y - f as real;
    if frac < 0.5 then f
    else if frac > 0.5 then f + 1
    else if Even(f) then f
    else f + 1
  }

  predicate Even(n: int) {
    n % 2 == 0
  }

  lemma NearestIntMonotone(x: real, y: real)
    requires x <= y
    ensures NearestInt(x) <= NearestInt(y)
  {
    var fx, fy := x.Floor, y.Floor;
    assert fx <= fy;
    if fx == fy && NearestInt(x) == fx + 1 {
      assert x - fx as real >= 0.5;
      if x - fx as real == 0.5 {
        assert !Even(fx);
      }
    }
  }

  lemma NearestIntOfInt(k: int)
    ensures NearestInt(k as real) == k
  {
    assert (k as real).Floor == k;
  }

  /** The number of decimals Python's round is asked for in this program. */
  type Places = d: nat | 1 <= d <= 3 witness 1

  /** x measured in units of the last kept decimal (x * 10^digits). Each
      branch multiplies by a literal, which keeps the arithmetic linear. */
  function Scaled(x: real, digits: Places): real {
    if digits == 1 then x * 10.0
    else if digits == 2 then x * 100.0
    else x * 1000.0
  }

  /** n units of the last kept decimal (n / 10^digits). */
  function Unscaled(n: int, digits: Places): (r: real)
    ensures Scaled(r, digits) == n as real
  {
    if digits == 1 then n as real / 10.0
    else if digits == 2 then n as real / 100.0
    else n as real / 1000.0
  }

  /** x is written with at most `digits` decimals. */
  predicate OnGrid(x: real, digits: Places) {
    Scaled(x, digits).Floor as real == Scaled(x, digits)
  }

  /** Python's round(x, digits), taken on the exact decimal value of x. */
  function Round(x: real, digits: Places): (r: real)
    ensures Scaled(x, digits) - 0.5 <= Scaled(r, digits) <= Scaled(x, digits) + 0.5
  {
    Unscaled(NearestInt(Scaled(x, digits)), digits)
  }

  /** round(x, digits) is written with `digits` decimals and lies within half
      a unit of its last decimal from x. */
  lemma RoundIsNearest(x: real, digits: Places)
    ensures OnGrid(Round(x, digits), digits)
    ensures Scaled(x, digits) - 0.5 <= Scaled(Round(x, digits), digits) <= Scaled(x, digits) + 0.5
  {
    var n := NearestInt(Scaled(x, digits));
    assert (n as real).Floor == n;
  }

  lemma RoundMonotone(x: real, y: real, digits: Places)
    requires x <= y
    ensures Round(x, digits) <= Round(y, digits)
  {
    NearestIntMonotone(Scaled(x, digits), Scaled(y, digits));
  }

  /** When x lies strictly within half a unit of the last kept decimal of
      n units, round(x, digits) is those n units: no tie is involved. */
  lemma RoundToNearestUnit(x: real, digits: Places, n: int)
    requires n as real - 0.5 < Scaled(x, digits) < n as real + 0.5
    ensures Round(x, digits) == Unscaled(n, digits)
  {
    var y := Scaled(x, digits);
    var m := NearestInt(y);
    assert (m - n) as real == m as real - n as real;
    assert -1 < m - n < 1;
  }

  /** A value already written with `digits` decimals is left as it is. */
  lemma RoundOnGrid(x: real, digits: Places)
    requires OnGrid(x, digits)
    ensures Round(x, digits) == x
  {
    NearestIntOfInt(Scaled(x, digits).Floor);
  }

  /** Rounding keeps a value inside [lo, hi] when both ends are on the grid. */
  lemma RoundWithin(x: real, lo: real, hi: real, digits: Places)
    requires lo <= x <= hi && OnGrid(lo, digits) && OnGrid(hi, digits)
    ensures lo <= Round(x, digits) <= hi
  {
    RoundMonotone(lo, x, digits);
    RoundMonotone(x, hi, digits);
    RoundOnGrid(lo, digits);
    RoundOnGrid(hi, digits);
  }
}
