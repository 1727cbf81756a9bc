/** Decimal quantisation with ROUND_HALF_UP, the rounding that `_round2` and
    `_round3` ask of Python's `decimal` module: a value is rounded to a fixed
    number of fractional digits, to the nearest multiple of the last digit's
    unit, and a value exactly halfway between two such multiples goes to the
    one farther from zero (not to the even one, as banker's rounding would).
    Values are exact rationals, so the model has none of the binary
    floating-point approximation that the source avoids by going through
    `str(x)`. */
module Rounding {

  /** `x` with the decimal point moved `places` digits to the right, i.e.
      `x * 10^places`, written as repeated multiplication by ten so that
      every step stays linear arithmetic. */
  function Shift(x: real, places: nat): real {
    if places == 0 then x else 10.0 * Shift(x, places - 1)
  }

  /** `y` with the decimal point moved `places` digits to the left. */
  function Unshift(y: real, places: nat): real {
    if places == 0 then y else Unshift(y, places - 1) / 10.0
  }

  lemma {:induction false} ShiftUnshift(y: real, places: nat)
    ensures Shift(Unshift(y, places), places) == y
    ensures Unshift(Shift(y, places), places) == y
    decreases places
  {
    if places > 0 {
      ShiftUnshift(y, places - 1);
      ShiftCommutes(Unshift(y, places - 1) / 10.0, places - 1);
      UnshiftCommutes(10.0 * Shift(y, places - 1), places - 1);
      ShiftUnshift(10.0 * y, places - 1);
      ShiftUnshift(y / 10.0, places - 1);
    }
  }

  lemma {:induction false} ShiftCommutes(x: real, places: nat)
    ensures Shift(10.0 * x, places) == 10.0 * Shift(x, places)
    ensures Shift(x / 10.0, places) == Shift(x, places) / 10.0
  {
    if places > 0 {
      ShiftCommutes(x, places - 1);
    }
  }

  lemma {:induction false} UnshiftCommutes(y: real, places: nat)
    ensures Unshift(10.0 * y, places) == 10.0 * Unshift(y, places)
    ensures Unshift(y / 10.0, places) == Unshift(y, places) / 10.0
  {
    if places > 0 {
      UnshiftCommutes(y, places - 1);
    }
  }

  /** Moving the decimal point is linear and order-preserving. */
  lemma {:induction false} ShiftLinear(a: real, b: real, places: nat)
    ensures Shift(a - b, places) == Shift(a, places) - Shift(b, places)
    ensures Shift(-a, places) == -Shift(a, places)
    ensures a < b <==> Shift(a, places) < Shift(b, places)
    ensures Unshift(a - b, places) == Unshift(a, places) - Unshift(b, places)
    ensures Unshift(-a, places) == -Unshift(a, places)
    ensures a < b <==> Unshift(a, places) < Unshift(b, places)
  {
    if places > 0 {
      ShiftLinear(a, b, places - 1);
    }
  }

  function Abs(x: real): real {
    if x < 0.0 then -x else x
  }

  /** `n` is the integer nearest to `y`, and when `y` lies exactly halfway
      between two integers, `n` is the one of larger magnitude. This is the
      meaning of ROUND_HALF_UP, independent of how it is computed. */
  ghost predicate RoundsTo(y: real, n: int) {
    var d := Abs(n as real - y);
    d < 0.5 || (d == 0.5 && Abs(n as real) > Abs(y))
  }

  /** At most one integer rounds `y` in the ROUND_HALF_UP sense. */
  lemma RoundsToUnique(y: real, n: int, m: int)
    requires RoundsTo(y, n) && RoundsTo(y, m)
    ensures n == m
  {
  }

  /** Rounds `y` to an integer, ties away from zero. */
  function HalfUpUnits(y: real): (n: int)
    ensures RoundsTo(y, n)
  {
    if y >= 0.0 then (y + 0.5).Floor else -((-y + 0.5).Floor)
  }

  /** A value with at most `places` digits after the decimal point. */
  predicate OnGrid(r: real, places: nat) {
    Shift(r, places).Floor as real == Shift(r, places)
  }

  /** `Decimal(x).quantize(Decimal("0." + "0" * places), rounding=ROUND_HALF_UP)`
      on exact values: `r` has at most `places` fractional digits, and, counted
      in units of its last digit, it is `x` rounded half away from zero. */
  function RoundHalfUp(x: real, places: nat): (r: real)
    ensures OnGrid(r, places)
    ensures RoundsTo(Shift(x, places), Shift(r, places).Floor)
  {
    var n := HalfUpUnits(Shift(x, places));
    ShiftUnshift(n as real, places);
    Unshift(n as real, places)
  }

  /** The contract of `RoundHalfUp` determines its result: any value with at
      most `places` fractional digits that rounds `x` half away from zero is
      the one `RoundHalfUp` returns. */
  lemma RoundHalfUpUnique(x: real, places: nat, r: real)
    requires OnGrid(r, places)
    requires RoundsTo(Shift(x, places), Shift(r, places).Floor)
    ensures r == RoundHalfUp(x, places)
  {
    var q := RoundHalfUp(x, places);
    RoundsToUnique(Shift(x, places), Shift(r, places).Floor, Shift(q, places).Floor);
    ShiftUnshift(r, places);
    ShiftUnshift(q, places);
  }

  /** The rounded value is within half a unit of its last digit. */
  lemma RoundHalfUpError(x: real, places: nat)
    ensures Abs(RoundHalfUp(x, places) - x) <= Unshift(0.5, places)
  {
    var r := RoundHalfUp(x, places);
    ShiftLinear(r, x, places);
    ShiftLinear(x, r, places);
    ShiftUnshift(0.5, places);
    if r >= x {
      ShiftLinear(Unshift(0.5, places), r - x, places);
    } else {
      ShiftLinear(Unshift(0.5, places), x - r, places);
      ShiftLinear(r - x, 0.0, places);
    }
  }

  /** A tie between two neighbouring values with `places` digits goes to the
      one away from zero: upward for positive values, downward for negative
      ones. */
  lemma RoundHalfUpTie(n: nat, places: nat)
    ensures RoundHalfUp(Unshift(n as real + 0.5, places), places) == Unshift((n + 1) as real, places)
    ensures RoundHalfUp(Unshift(-(n as real + 0.5), places), places) == Unshift(-((n + 1) as real), places)
  {
    var up := (n + 1) as real;
    var tie := n as real + 0.5;
    ShiftUnshift(tie, places);
    ShiftUnshift(up, places);
    ShiftUnshift(-tie, places);
    ShiftUnshift(-up, places);
    assert RoundsTo(tie, n + 1);
    assert RoundsTo(-tie, -(n + 1));
    RoundHalfUpUnique(Unshift(tie, places), places, Unshift(up, places));
    RoundHalfUpUnique(Unshift(-tie, places), places, Unshift(-up, places));
  }

  /** ROUND_HALF_UP is symmetric about zero. */
  lemma RoundHalfUpNegate(x: real, places: nat)
    ensures RoundHalfUp(-x, places) == -RoundHalfUp(x, places)
  {
    var r := RoundHalfUp(x, places);
    ShiftLinear(r, 0.0, places);
    ShiftLinear(x, 0.0, places);
    var n := Shift(r, places).Floor;
    assert Shift(-r, places) == -(n as real);
    assert Shift(-r, places).Floor == -n;
    assert RoundsTo(Shift(-x, places), -n);
    RoundHalfUpUnique(-x, places, -r);
  }

  /** A value that already has at most `places` fractional digits is kept. */
  lemma RoundHalfUpOnGrid(x: real, places: nat)
    requires OnGrid(x, places)
    ensures RoundHalfUp(x, places) == x
  {
    assert RoundsTo(Shift(x, places), Shift(x, places).Floor);
    RoundHalfUpUnique(x, places, x);
  }

  /** Rounding never reverses the order of two values. */
  lemma RoundHalfUpMonotonic(x: real, y: real, places: nat)
    requires x <= y
    ensures RoundHalfUp(x, places) <= RoundHalfUp(y, places)
  {
    var m, n := HalfUpUnits(Shift(x, places)), HalfUpUnits(Shift(y, places));
    if x < y {
      ShiftLinear(x, y, places);
    }
    assert m <= n;
    if m < n {
      ShiftLinear(m as real, n as real, places);
    }
  }

  /** `_round2`: two fractional digits, within half a cent of `x`, and in
      hundredths the integer nearest to `x`, ties away from zero. */
  function Round2(x: real): (r: real)
    ensures (r * 100.0).Floor as real == r * 100.0
    ensures -0.005 <= r - x <= 0.005
    ensures RoundsTo(x * 100.0, (r * 100.0).Floor)
  {
    RoundHalfUpError(x, 2);
    var r := RoundHalfUp(x, 2);
    assert Shift(r, 1) == 10.0 * r;
    assert Shift(r, 2) == r * 100.0;
    assert Shift(x, 1) == 10.0 * x;
    assert Shift(x, 2) == x * 100.0;
    r
  }

  /** `_round3`: three fractional digits, within half a thousandth of `x`,
      and in thousandths the integer nearest to `x`, ties away from zero. */
  function Round3(x: real): (r: real)
    ensures (r * 1000.0).Floor as real == r * 1000.0
    ensures -0.0005 <= r - x <= 0.0005
    ensures RoundsTo(x * 1000.0, (r * 1000.0).Floor)
  {
    RoundHalfUpError(x, 3);
    var r := RoundHalfUp(x, 3);
    assert Shift(r, 1) == 10.0 * r;
    assert Shift(r, 2) == 100.0 * r;
    assert Shift(r, 3) == r * 1000.0;
    assert Shift(x, 1) == 10.0 * x;
    assert Shift(x, 2) == 100.0 * x;
    assert Shift(x, 3) == x * 1000.0;
    r
  }

  /** Ties are resolved away from zero, where banker's rounding would pick the
      even digit: 0.125 becomes 0.13. */
  lemma HalfUpTieUp()
    ensures Round2(0.125) == 0.13
  {
    RoundHalfUpTie(12, 2);
  }

  /** The same tie below zero: -0.125 becomes -0.13. */
  lemma HalfUpTieDown()
    ensures Round2(-0.125) == -0.13
  {
    RoundHalfUpTie(12, 2);
  }

  /** At three places: the mean discount 0.1235 becomes 0.124. */
  lemma HalfUpTieThousandths()
    ensures Round3(0.1235) == 0.124
  {
    RoundHalfUpTie(123, 3);
  }
}
