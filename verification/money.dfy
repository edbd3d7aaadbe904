/** Exact money arithmetic: JavaScript numbers as reals, the program's rounding
    rule, `toFixed(2)` rendering, and the IEEE special values where the program
    tests for them. */
module Money {
  import opened Wrappers
  import opened Text

  /** Decimal places kept for money amounts. */
  const MoneyScale: nat := 2
  /** Decimal places kept for currency-to-USD rates. */
  const RateScale: nat := 6
  /** Largest accepted gap between a client-supplied aggregate and the computed one. */
  const Tolerance: real := 0.02

  /** A JavaScript number: a finite value or one of the special values that
      `Number.isFinite` rejects. Signed zero is not distinguished. */
  datatype Num = Fin(v: real) | NaN | PosInf | NegInf {
    predicate IsFinite() {
      Fin?
    }
  }

  function Abs(x: real): (r: real)
    ensures r >= 0.0 && (r == x || r == -x)
  {
    if x < 0.0 then -x else x
  }

  /** `Math.max(a, b)`. */
  function Max(a: real, b: real): (r: real)
    ensures r >= a && r >= b && (r == a || r == b)
  {
    if a >= b then a else b
  }

  /** `x * 10^s`: `x` counted in steps of the grid at scale `s`. Written as
      repeated multiplication by ten so that every unfolding stays linear. */
  function Scaled(x: real, s: nat): real {
    if s == 0 then x else 10.0 * Scaled(x, s - 1)
  }

  /** `y / 10^s`, the inverse of `Scaled`. */
  function Unscaled(y: real, s: nat): real
    decreases s
  {
    if s == 0 then y else Unscaled(y / 10.0, s - 1)
  }

  /** One step of the grid at scale `s`: `10^-s`. */
  function Step(s: nat): real {
    Unscaled(1.0, s)
  }

  lemma {:induction false} ScaledLinear(a: real, b: real, s: nat)
    ensures Scaled(a + b, s) == Scaled(a, s) + Scaled(b, s)
    ensures Scaled(a - b, s) == Scaled(a, s) - Scaled(b, s)
    ensures Scaled(-a, s) == -Scaled(a, s)
  {
    if s > 0 {
      ScaledLinear(a, b, s - 1);
    }
  }

  lemma {:induction false} ScaledOrder(a: real, b: real, s: nat)
    ensures a <= b <==> Scaled(a, s) <= Scaled(b, s)
    ensures a == b <==> Scaled(a, s) == Scaled(b, s)
  {
    if s > 0 {
      ScaledOrder(a, b, s - 1);
    }
  }

  lemma {:induction false} ScaledUnscaled(y: real, s: nat)
    ensures Scaled(Unscaled(y, s), s) == y
    decreases s
  {
    if s > 0 {
      ScaledUnscaled(y / 10.0, s - 1);
    }
  }

  lemma ScaledZero(s: nat)
    ensures Scaled(0.0, s) == 0.0
  {
    ScaledLinear(0.0, 0.0, s);
  }

  /** At money scale, scaling is multiplying by 100. */
  lemma MoneyScaled(x: real)
    ensures Scaled(x, MoneyScale) == 100.0 * x
    ensures Unscaled(x, MoneyScale) == x / 100.0
  {
    assert Scaled(x, 2) == 10.0 * Scaled(x, 1) == 10.0 * (10.0 * Scaled(x, 0));
    assert Unscaled(x, 2) == Unscaled(x / 10.0, 1) == Unscaled(x / 10.0 / 10.0, 0);
  }

  /** At rate scale, scaling is multiplying by a million. */
  lemma RateScaled(x: real)
    ensures Scaled(x, RateScale) == 1000000.0 * x
    ensures Unscaled(x, RateScale) == x / 1000000.0
  {
    assert Scaled(x, 6) == 10.0 * Scaled(x, 5);
    assert Scaled(x, 5) == 10.0 * Scaled(x, 4);
    assert Scaled(x, 4) == 10.0 * Scaled(x, 3);
    assert Scaled(x, 3) == 10.0 * Scaled(x, 2);
    assert Scaled(x, 2) == 10.0 * Scaled(x, 1) == 10.0 * (10.0 * Scaled(x, 0));
    assert Unscaled(x, 6) == Unscaled(x / 10.0, 5);
    assert Unscaled(x / 10.0, 5) == Unscaled(x / 100.0, 4);
    assert Unscaled(x / 100.0, 4) == Unscaled(x / 1000.0, 3);
    assert Unscaled(x / 1000.0, 3) == Unscaled(x / 10000.0, 2);
    assert Unscaled(x / 10000.0, 2) == Unscaled(x / 100000.0, 1);
    assert Unscaled(x / 100000.0, 1) == Unscaled(x / 1000000.0, 0);
  }

  /** `x` has at most `s` decimal places. */
  predicate OnGrid(x: real, s: nat) {
    Scaled(x, s).Floor as real == Scaled(x, s)
  }

  /** The program's `round(value, scale)`: `Math.round(value * 10^scale) / 10^scale`,
      where `Math.round` sends halves up. The result is the grid point at distance
      at most half a step from `x`, halves going to the larger neighbour. */
  function Round(x: real, s: nat): (r: real)
    ensures OnGrid(r, s)
    ensures Scaled(r, s) - 0.5 <= Scaled(x, s) < Scaled(r, s) + 0.5
    ensures x >= 0.0 ==> r >= 0.0
  {
    var k := (Scaled(x, s) + 0.5).Floor;
    var r := Unscaled(k as real, s);
    ScaledUnscaled(k as real, s);
    ScaledZero(s);
    ScaledOrder(0.0, x, s);
    ScaledOrder(0.0, r, s);
    r
  }

  /** The window of `Round` pins its result down: it is the only grid point
      at most half a step above `x` and strictly less than half a step below. */
  lemma RoundUnique(x: real, s: nat, g: real)
    requires OnGrid(g, s)
    requires Scaled(g, s) - 0.5 <= Scaled(x, s) < Scaled(g, s) + 0.5
    ensures Round(x, s) == g
  {
    var r := Round(x, s);
    var k := Scaled(g, s).Floor;
    var j := Scaled(r, s).Floor;
    assert k == j;
    ScaledOrder(g, r, s);
  }

  /** A value already on the grid is left alone. */
  lemma RoundOnGrid(x: real, s: nat)
    requires OnGrid(x, s)
    ensures Round(x, s) == x
  {
    RoundUnique(x, s, x);
  }

  lemma RoundMonotone(x: real, y: real, s: nat)
    requires x <= y
    ensures Round(x, s) <= Round(y, s)
  {
    ScaledOrder(x, y, s);
    var rx, ry := Round(x, s), Round(y, s);
    var i, j := Scaled(rx, s).Floor, Scaled(ry, s).Floor;
    assert i <= j;
    ScaledOrder(rx, ry, s);
  }

  lemma OnGridAdd(a: real, b: real, s: nat)
    requires OnGrid(a, s) && OnGrid(b, s)
    ensures OnGrid(a + b, s) && OnGrid(a - b, s)
  {
    ScaledLinear(a, b, s);
    var i, j := Scaled(a, s).Floor, Scaled(b, s).Floor;
    assert Scaled(a + b, s) == (i + j) as real;
    assert Scaled(a - b, s) == (i - j) as real;
  }

  /** Adding a grid value before rounding is adding it after. */
  lemma RoundShift(g: real, x: real, s: nat)
    requires OnGrid(g, s)
    ensures Round(g + x, s) == g + Round(x, s)
  {
    var r := Round(x, s);
    OnGridAdd(g, r, s);
    ScaledLinear(g, x, s);
    ScaledLinear(g, r, s);
    RoundUnique(g + x, s, g + r);
  }

  /** Rounding the negation is the negated rounding, except at an exact half,
      where halves-up makes it one step larger. */
  lemma RoundNegate(x: real, s: nat)
    ensures Round(-x, s) == -Round(x, s) || Round(-x, s) == -Round(x, s) + Step(s)
  {
    var r := Round(x, s);
    var sr := Scaled(r, s);
    var sx := Scaled(x, s);
    assert sr - 0.5 <= sx < sr + 0.5;
    var a := -r;
    var b := -r + Step(s);
    NegateGridPoints(r, s);
    ScaledLinear(x, 0.0, s);
    assert Scaled(-x, s) == -sx;
    if -sx < -sr + 0.5 {
      RoundUnique(-x, s, a);
    } else {
      RoundUnique(-x, s, b);
    }
  }

  /** The negation of a grid point and the next grid point above it. */
  lemma NegateGridPoints(r: real, s: nat)
    requires OnGrid(r, s)
    ensures Scaled(-r, s) == -Scaled(r, s) && OnGrid(-r, s)
    ensures Scaled(-r + Step(s), s) == -Scaled(r, s) + 1.0 && OnGrid(-r + Step(s), s)
  {
    var k := Scaled(r, s).Floor;
    ScaledLinear(r, 0.0, s);
    ScaledLinear(-r, Step(s), s);
    ScaledUnscaled(1.0, s);
    assert Scaled(-r, s) == (-k) as real;
    assert Scaled(-r + Step(s), s) == (-k + 1) as real;
  }

  /** A value within half a step of the grid point `k / 10^s` rounds to it. */
  lemma RoundToGridPoint(x: real, s: nat, k: int)
    requires k as real - 0.5 <= Scaled(x, s) < k as real + 0.5
    ensures Round(x, s) == Unscaled(k as real, s)
  {
    var g := Unscaled(k as real, s);
    ScaledUnscaled(k as real, s);
    RoundUnique(x, s, g);
  }

  /** At money scale the rounding error is at most half a cent, and never
      minus half a cent. */
  lemma RoundMoneyError(x: real)
    ensures -0.005 < Round(x, MoneyScale) - x <= 0.005
  {
    MoneyScaled(x);
    MoneyScaled(Round(x, MoneyScale));
  }

  /** Rounding to money scale a value within half a cent of `k` cents. */
  lemma RoundToCents(x: real, k: int)
    requires k as real - 0.5 <= x * 100.0 < k as real + 0.5
    ensures Round(x, MoneyScale) == k as real / 100.0
  {
    MoneyScaled(x);
    MoneyScaled(k as real);
    RoundToGridPoint(x, MoneyScale, k);
  }

  /** `toFixed` arithmetic: halves go away from zero, the sign is kept apart. */
  function HalfAway(x: real, s: nat): (r: real)
    ensures x >= 0.0 ==> r == Round(x, s)
    ensures x >= 0.0 ==> Scaled(r, s) - 0.5 <= Scaled(x, s) < Scaled(r, s) + 0.5
    ensures x < 0.0 ==> Scaled(r, s) - 0.5 < Scaled(x, s) <= Scaled(r, s) + 0.5
    ensures OnGrid(r, s)
    ensures (x >= 0.0 ==> r >= 0.0) && (x <= 0.0 ==> r <= 0.0)
  {
    if x < 0.0 then
      var p := Round(-x, s);
      NegateGridPoints(p, s);
      ScaledLinear(x, 0.0, s);
      -p
    else
      ScaledZero(s);
      RoundOnGrid(0.0, s);
      Round(x, s)
  }

  /** A value already on the grid is its own rounding, whatever its sign. */
  lemma HalfAwayOnGrid(x: real, s: nat)
    requires OnGrid(x, s)
    ensures HalfAway(x, s) == x
  {
    if x < 0.0 {
      NegateGridPoints(x, s);
      RoundOnGrid(-x, s);
    } else {
      RoundOnGrid(x, s);
    }
  }

  lemma HalfAwayZero(s: nat)
    ensures HalfAway(0.0, s) == 0.0
  {
    ScaledZero(s);
    RoundOnGrid(0.0, s);
  }

  /** `x.toFixed(2)` for `x` below 10^21: the sign, then the integer digits,
      a point and two decimals of the value rounded half away from zero. */
  function Fixed2(x: real): (r: string)
  {
    if x < 0.0 then "-" + Fixed2Abs(-x) else Fixed2Abs(x)
  }

  function Fixed2Abs(x: real): (r: string)
    requires x >= 0.0
  {
    var n: nat := (x * 100.0 + 0.5).Floor;
    var r := NatToString(n / 100) + "." + [DigitChar(n % 100 / 10), DigitChar(n % 10)];
    assert r[..|r| - 3] == NatToString(n / 100);
    r
  }

  /** `Number(t)` for the strings `Fixed2` writes: an optional minus sign,
      digits, a point and two digits. */
  function ParseFixed2(t: string): Option<real> {
    if |t| > 0 && t[0] == '-' then
      match ParseUnsignedFixed2(t[1..])
      case Some(v) => Some(-v)
      case None => None
    else ParseUnsignedFixed2(t)
  }

  function ParseUnsignedFixed2(t: string): Option<real> {
    if |t| >= 4 && t[|t| - 3] == '.' && AllDigits(t[..|t| - 3])
       && IsDigit(t[|t| - 2]) && IsDigit(t[|t| - 1])
    then
      var cents := 10 * DigitValue(t[|t| - 2]) + DigitValue(t[|t| - 1]);
      Some(DigitsValue(t[..|t| - 3]) as real + cents as real / 100.0)
    else None
  }

  /** Reading back what `Fixed2Abs` writes gives the value rounded to cents. */
  lemma ParseFixed2AbsRoundTrip(x: real)
    requires x >= 0.0
    ensures ParseUnsignedFixed2(Fixed2Abs(x)) == Some(Round(x, MoneyScale))
  {
    var n: nat := (x * 100.0 + 0.5).Floor;
    var t := Fixed2Abs(x);
    var q := NatToString(n / 100);
    assert t == q + "." + [DigitChar(n % 100 / 10), DigitChar(n % 10)];
    assert t[..|t| - 3] == q;
    NatToStringRoundTrip(n / 100);
    assert DigitValue(t[|t| - 2]) == n % 100 / 10;
    assert DigitValue(t[|t| - 1]) == n % 10;
    assert 10 * (n % 100 / 10) + n % 10 == n % 100;
    assert (n / 100) as real + (n % 100) as real / 100.0 == n as real / 100.0;
    RoundToCents(x, n);
  }

  /** `Number(x.toFixed(2))` is `x` rounded to cents, halves away from zero. */
  lemma ParseFixed2RoundTrip(x: real)
    ensures ParseFixed2(Fixed2(x)) == Some(HalfAway(x, MoneyScale))
  {
    if x < 0.0 {
      ParseFixed2AbsRoundTrip(-x);
      var t := Fixed2(x);
      assert t[1..] == Fixed2Abs(-x);
    } else {
      ParseFixed2AbsRoundTrip(x);
      assert Fixed2(x)[0] != '-';
    }
  }

  /** IEEE addition on the special values; finite sums are exact. */
  function Add(a: Num, b: Num): (r: Num)
    ensures a.Fin? && b.Fin? ==> r == Fin(a.v + b.v)
    ensures r.Fin? ==> a.Fin? && b.Fin?
  {
    match (a, b)
    case (Fin(x), Fin(y)) => Fin(x + y)
    case (NaN, _) => NaN
    case (_, NaN) => NaN
    case (PosInf, NegInf) => NaN
    case (NegInf, PosInf) => NaN
    case (PosInf, _) => PosInf
    case (_, PosInf) => PosInf
    case (NegInf, _) => NegInf
    case (_, NegInf) => NegInf
  }

  lemma AddFinite(x: real, y: real)
    ensures Add(Fin(x), Fin(y)) == Fin(x + y)
  {
  }

  lemma MulDivCancel(x: real, a: real)
    requires a != 0.0
    ensures x * a / a == x
  {
  }

  function Negate(a: Num): (r: Num)
    ensures r.Fin? <==> a.Fin?
  {
    match a
    case Fin(x) => Fin(-x)
    case NaN => NaN
    case PosInf => NegInf
    case NegInf => PosInf
  }

  function Sub(a: Num, b: Num): (r: Num)
    ensures a.Fin? && b.Fin? ==> r == Fin(a.v - b.v)
  {
    Add(a, Negate(b))
  }

  /** Sign of a number that is not NaN: -1, 0 or 1. */
  function Sign(a: Num): int
    requires !a.NaN?
  {
    match a
    case Fin(x) => if x < 0.0 then -1 else if x > 0.0 then 1 else 0
    case PosInf => 1
    case NegInf => -1
  }

  /** IEEE multiplication on the special values; finite products are exact. */
  function Mul(a: Num, b: Num): (r: Num)
    ensures a.Fin? && b.Fin? ==> r == Fin(a.v * b.v)
    ensures r.Fin? ==> a.Fin? && b.Fin?
  {
    if a.NaN? || b.NaN? then NaN
    else if a.Fin? && b.Fin? then Fin(a.v * b.v)
    else
      var sa, sb := Sign(a), Sign(b);
      if sa == 0 || sb == 0 then NaN else if (sa > 0) == (sb > 0) then PosInf else NegInf
  }

  /** IEEE division on the special values; a zero divisor is `+0`. */
  function Div(a: Num, b: Num): (r: Num)
    ensures a.Fin? && b.Fin? && b.v != 0.0 ==> r == Fin(a.v / b.v)
    ensures a.Fin? && (b.PosInf? || b.NegInf?) ==> r == Fin(0.0)
    ensures r.Fin? ==> a.Fin? && !b.NaN?
  {
    if a.NaN? || b.NaN? then NaN
    else if a.Fin? && b.Fin? then
      if b.v != 0.0 then Fin(a.v / b.v)
      else if a.v == 0.0 then NaN
      else if a.v > 0.0 then PosInf else NegInf
    else if a.Fin? then Fin(0.0)
    else if b.Fin? then
      if (Sign(a) > 0) == (b.v >= 0.0) then PosInf else NegInf
    else NaN
  }
}
