/** Quantities: a value paired with a unit vector, the state of a Python `Unum`
    apart from its `_normal` display flag (which lives in `Unums.Unum`).
    Arithmetic never changes its operands, so here it works on values:
    `Times`, `Quotient` and `Power` are the specifications, `Mul`, `Div`,
    `FloorDiv` and `PowInt` the source's operators. */
module Quantities {
  import opened Errors
  import opened Powers
  import opened UnitVectors

  datatype Quantity = Quantity(value: real, unit: Unit)

  /** `coerceToUnum`: a raw number becomes a unitless quantity. */
  function Coerce(x: real): (q: Quantity)
    ensures q.unit == map[] && q.value == x
  {
    Quantity(x, map[])
  }

  const One := Quantity(1.0, map[])

  function Times(a: Quantity, b: Quantity): Quantity
  {
    Quantity(Prod(a.value, b.value), Sum(a.unit, b.unit))
  }

  function Quotient(a: Quantity, b: Quantity): Quantity
    requires b.value != 0.0
  {
    Quantity(a.value / b.value, Diff(a.unit, b.unit))
  }

  function Power(a: Quantity, n: int): Quantity
    requires a.value != 0.0 || n >= 0
  {
    Quantity(IntPow(a.value, n), Scaled(a.unit, n))
  }

  // -- algebra of the specifications ----------------------------------

  lemma TimesComm(a: Quantity, b: Quantity)
    ensures Times(a, b) == Times(b, a)
  {
    SumComm(a.unit, b.unit);
    MulComm(a.value, b.value);
  }

  lemma TimesAssoc(a: Quantity, b: Quantity, c: Quantity)
    ensures Times(Times(a, b), c) == Times(a, Times(b, c))
  {
    SumAssoc(a.unit, b.unit, c.unit);
    MulAssoc(a.value, b.value, c.value);
  }

  lemma TimesOne(a: Quantity)
    requires Canonical(a.unit)
    ensures Times(a, One) == a && Times(One, a) == a
  {
    SumEmpty(a.unit);
  }

  /** `(A * B) * (C * D) == (A * C) * (B * D)`. */
  lemma TimesSwap(a: Quantity, b: Quantity, c: Quantity, d: Quantity)
    ensures Times(Times(a, b), Times(c, d)) == Times(Times(a, c), Times(b, d))
  {
    calc {
      Times(Times(a, b), Times(c, d));
      { TimesAssoc(a, b, Times(c, d)); }
      Times(a, Times(b, Times(c, d)));
      { TimesAssoc(b, c, d); TimesComm(b, c); TimesAssoc(c, b, d); }
      Times(a, Times(c, Times(b, d)));
      { TimesAssoc(a, c, Times(b, d)); }
      Times(Times(a, c), Times(b, d));
    }
  }

  /** The regrouping behind the expansion of a sum of exponents:
      `g * (x * y) == (a * b1) * y == a * (b1 * y)` once `g * x == a * b1`. */
  lemma TimesRegroup(g: Quantity, x: Quantity, y: Quantity, a: Quantity, b1: Quantity)
    ensures Times(g, x) == Times(a, b1) ==> Times(g, Times(x, y)) == Times(a, Times(b1, y))
  {
    TimesAssoc(g, x, y);
    TimesAssoc(a, b1, y);
  }

  /** A factor with a non-zero value can be cancelled. */
  lemma TimesCancel(x: Quantity, z: Quantity, y: Quantity)
    requires y.value != 0.0 && Canonical(x.unit) && Canonical(z.unit)
    requires Times(x, y) == Times(z, y)
    ensures x == z
  {
    SumExp(x.unit, y.unit);
    SumExp(z.unit, y.unit);
    forall s ensures Exp(x.unit, s) == Exp(z.unit, s) {
      assert Exp(Sum(x.unit, y.unit), s) == Exp(Sum(z.unit, y.unit), s);
    }
    CanonicalEq(x.unit, z.unit);
    MulCancel(x.value, z.value, y.value);
  }

  lemma PowerZero(a: Quantity)
    ensures Power(a, 0) == One
  {
  }

  lemma PowerOne(a: Quantity)
    requires Canonical(a.unit)
    ensures Power(a, 1) == a
  {
    ScaledOne(a.unit);
  }

  /** `a ** (m + n) == a ** m * a ** n` for a non-zero value. */
  lemma PowerAdd(a: Quantity, m: int, n: int)
    requires a.value != 0.0
    ensures Power(a, m + n) == Times(Power(a, m), Power(a, n))
  {
    IntPowAdd(a.value, m, n);
    ScaledAdd(a.unit, m, n);
  }

  /** `PowerAdd` with the sum given as a separate exponent `total`. */
  lemma PowerSplit(a: Quantity, m: int, n: int, total: int)
    requires a.value != 0.0 && total == m + n
    ensures Power(a, total) == Times(Power(a, m), Power(a, n))
  {
    PowerAdd(a, m, n);
  }

  lemma PowerSucc(a: Quantity, n: int)
    requires a.value != 0.0 && Canonical(a.unit)
    ensures Power(a, n + 1) == Times(Power(a, n), a)
  {
    PowerAdd(a, n, 1);
    PowerOne(a);
  }

  /** Dividing is multiplying by the inverse. */
  lemma QuotientIsTimesInverse(a: Quantity, b: Quantity)
    requires b.value != 0.0
    ensures Quotient(a, b) == Times(a, Power(b, -1))
  {
    DiffIsSum(a.unit, b.unit);
    assert IntPow(b.value, -1) == 1.0 / b.value;
  }

  lemma PowerValue(a: Quantity, n: int)
    requires a.value != 0.0
    ensures Power(a, n).value != 0.0
    ensures a.value > 0.0 ==> Power(a, n).value > 0.0
  {
    IntPowNonZero(a.value, n);
    if a.value > 0.0 {
      IntPowPositive(a.value, n);
    }
  }

  // -- the source's operators --------------------------------------------

  /** `__mul__`: values multiply, exponents add (zeros dropped); an empty
      unit on either side gives the other side's unit as it is. */
  method Mul(a: Quantity, b: Quantity) returns (r: Quantity)
    ensures r.value == a.value * b.value
    ensures forall s :: Exp(r.unit, s) == Exp(a.unit, s) + Exp(b.unit, s)
    ensures r.unit.Keys <= a.unit.Keys + b.unit.Keys
    ensures a.unit == map[] ==> r.unit == b.unit
    ensures b.unit == map[] ==> r.unit == a.unit
    ensures Canonical(a.unit) && Canonical(b.unit) ==> r == Times(a, b)
  {
    var unit := MulUnits(a.unit, b.unit);
    r := Quantity(a.value * b.value, unit);
  }

  /** `__div__` (also `__truediv__`, and in the legacy revision also
      `__floordiv__`): exponents subtract, values divide; a zero divisor
      raises ZeroDivisionError. */
  method Div(a: Quantity, b: Quantity) returns (r: Result<Quantity>)
    ensures r.Err? <==> b.value == 0.0
    ensures r.Err? ==> r.error == ZeroDivision
    ensures r.Ok? ==> r.value.value == a.value / b.value
    ensures r.Ok? ==> forall s :: Exp(r.value.unit, s) == Exp(a.unit, s) - Exp(b.unit, s)
    ensures r.Ok? ==> r.value.unit.Keys <= a.unit.Keys + b.unit.Keys
    ensures r.Ok? && b.unit == map[] ==> r.value.unit == a.unit
    ensures Canonical(a.unit) && Canonical(b.unit) && b.value != 0.0 ==> r == Ok(Quotient(a, b))
  {
    var unit := DivUnits(a.unit, b.unit);
    if b.value == 0.0 {
      return Err(ZeroDivision);
    }
    r := Ok(Quantity(a.value / b.value, unit));
  }

  /** `__floordiv__` of the current revision: the units as for division, the
      value rounded down (Python's `//` floors, for `Fraction`s as for floats). */
  method FloorDiv(a: Quantity, b: Quantity) returns (r: Result<Quantity>)
    ensures r.Err? <==> b.value == 0.0
    ensures r.Err? ==> r.error == ZeroDivision
    ensures r.Ok? ==> r.value.value == (a.value / b.value).Floor as real
    ensures r.Ok? ==> r.value.value <= a.value / b.value < r.value.value + 1.0
    ensures r.Ok? ==> forall s :: Exp(r.value.unit, s) == Exp(a.unit, s) - Exp(b.unit, s)
    ensures Canonical(a.unit) && Canonical(b.unit) && b.value != 0.0 ==> r.Ok? && r.value.unit == Diff(a.unit, b.unit)
  {
    var unit := DivUnits(a.unit, b.unit);
    if b.value == 0.0 {
      return Err(ZeroDivision);
    }
    r := Ok(Quantity((a.value / b.value).Floor as real, unit));
  }

  /** `__pow__` with a unitless exponent whose value is the integer `n`: a
      zero exponent gives the empty unit and the value 1; otherwise every
      exponent is multiplied by `n`.  0 to a negative power raises
      ZeroDivisionError. */
  method PowInt(a: Quantity, n: int) returns (r: Result<Quantity>)
    ensures r.Err? <==> a.value == 0.0 && n < 0
    ensures r.Err? ==> r.error == ZeroDivision
    ensures n == 0 ==> r == Ok(Quantity(1.0, map[]))
    ensures r.Ok? ==> r.value.value == IntPow(a.value, n)
    ensures r.Ok? && n != 0 ==> r.value.unit.Keys == a.unit.Keys
    ensures r.Ok? && n != 0 ==> forall s :: s in r.value.unit ==> r.value.unit[s] == a.unit[s] * n
    ensures Canonical(a.unit) && (a.value != 0.0 || n >= 0) ==> r == Ok(Power(a, n))
  {
    if n != 0 {
      var unit := PowUnits(a.unit, n);
      if a.value == 0.0 && n < 0 {
        return Err(ZeroDivision);
      }
      r := Ok(Quantity(IntPow(a.value, n), unit));
    } else {
      r := Ok(Quantity(1.0, map[]));
    }
  }

  /** `__neg__`, `__pos__` and `__abs__` keep the unit and transform the value. */
  function Neg(a: Quantity): (r: Quantity)
    ensures r.unit == a.unit && r.value + a.value == 0.0
  {
    Quantity(-a.value, a.unit)
  }

  function Pos(a: Quantity): (r: Quantity)
    ensures r == a
  {
    Quantity(a.value, a.unit)
  }

  function Abs(a: Quantity): (r: Quantity)
    ensures r.unit == a.unit && r.value >= 0.0 && (r.value == a.value || r.value == -a.value)
  {
    Quantity(if a.value < 0.0 then -a.value else a.value, a.unit)
  }
}
