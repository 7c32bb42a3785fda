/** Integer powers of exact rationals (Python's `x ** n` on `Fraction`s and on
    the integer exponents the unit algebra produces) and of naturals (used by
    the termination measure of the normaliser). */
module Powers {

  /** Real multiplication and division as named functions: recursive
      definitions below use them, so that the products they build are terms
      the solver matches rather than arithmetic it re-derives. */
  function Prod(x: real, y: real): real
  {
    x * y
  }

  function Ratio(x: real, y: real): real
    requires y != 0.0
  {
    x / y
  }

  /** `x ** n` for an integer `n`; a negative power divides, so it needs a
      non-zero base (Python raises ZeroDivisionError otherwise). */
  function IntPow(x: real, n: int): real
    requires x != 0.0 || n >= 0
    decreases if n >= 0 then n else -n
  {
    if n == 0 then 1.0
    else if n > 0 then Prod(x, IntPow(x, n - 1))
    else Ratio(IntPow(x, n + 1), x)
  }

  lemma {:induction false} IntPowNonZero(x: real, n: int)
    requires x != 0.0
    ensures IntPow(x, n) != 0.0
    decreases if n >= 0 then n else -n
  {
    if n > 0 {
      IntPowNonZero(x, n - 1);
    } else if n < 0 {
      IntPowNonZero(x, n + 1);
    }
  }

  lemma {:induction false} IntPowPositive(x: real, n: int)
    requires x > 0.0
    ensures IntPow(x, n) > 0.0
    decreases if n >= 0 then n else -n
  {
    if n > 0 {
      IntPowPositive(x, n - 1);
    } else if n < 0 {
      IntPowPositive(x, n + 1);
    }
  }

  lemma IntPowOne(n: int)
    ensures IntPow(1.0, n) == 1.0
    decreases if n >= 0 then n else -n
  {
    if n > 0 {
      IntPowOne(n - 1);
    } else if n < 0 {
      IntPowOne(n + 1);
    }
  }

  /** Raising to `n + 1` multiplies by the base once more, for every integer `n`. */
  lemma IntPowSucc(x: real, n: int)
    requires x != 0.0
    ensures IntPow(x, n + 1) == Prod(IntPow(x, n), x)
  {
    if n < 0 {
      var y := IntPow(x, n + 1);
      assert IntPow(x, n) == Ratio(y, x);
      assert Prod(Ratio(y, x), x) == y;
    }
  }

  /** `x ** (m + n) == x ** m * x ** n`. */
  lemma IntPowAdd(x: real, m: int, n: int)
    requires x != 0.0
    ensures IntPow(x, m + n) == Prod(IntPow(x, m), IntPow(x, n))
  {
    if n >= 0 {
      IntPowAddUp(x, m, n);
    } else {
      IntPowAddDown(x, m, n);
    }
  }

  lemma {:induction false} IntPowAddUp(x: real, m: int, n: int)
    requires x != 0.0 && n >= 0
    ensures IntPow(x, m + n) == Prod(IntPow(x, m), IntPow(x, n))
  {
    if n > 0 {
      IntPowAddUp(x, m, n - 1);
      var c, c1, a, b1, b := IntPow(x, m + n), IntPow(x, m + n - 1), IntPow(x, m), IntPow(x, n - 1), IntPow(x, n);
      IntPowSucc(x, m + n - 1);
      IntPowSucc(x, n - 1);
      StepUp(c, c1, a, b1, b, x);
    }
  }

  lemma {:induction false} IntPowAddDown(x: real, m: int, n: int)
    requires x != 0.0 && n <= 0
    ensures IntPow(x, m + n) == Prod(IntPow(x, m), IntPow(x, n))
    decreases -n
  {
    if n < 0 {
      IntPowAddDown(x, m, n + 1);
      var c, c1, a, b, b1 := IntPow(x, m + n), IntPow(x, m + n + 1), IntPow(x, m), IntPow(x, n), IntPow(x, n + 1);
      IntPowSucc(x, m + n);
      IntPowSucc(x, n);
      StepDown(c, c1, a, b, b1, x);
    }
  }

  lemma StepUp(c: real, c1: real, a: real, b1: real, b: real, x: real)
    requires c == Prod(c1, x) && c1 == Prod(a, b1) && b == Prod(b1, x)
    ensures c == Prod(a, b)
  {
  }

  lemma StepDown(c: real, c1: real, a: real, b: real, b1: real, x: real)
    requires x != 0.0 && c1 == Prod(c, x) && c1 == Prod(a, b1) && b1 == Prod(b, x)
    ensures c == Prod(a, b)
  {
    assert Prod(c, x) == Prod(Prod(a, b), x);
    MulCancel(c, Prod(a, b), x);
  }

  lemma MulCancel(p: real, q: real, x: real)
    requires x != 0.0 && Prod(p, x) == Prod(q, x)
    ensures p == q
  {
    assert (p - q) * x == 0.0;
  }

  lemma MulNonZero(p: real, q: real)
    requires p != 0.0 && q != 0.0
    ensures Prod(p, q) != 0.0
  {
  }

  lemma MulZero(p: real, q: real)
    requires q != 0.0
    ensures Prod(p, q) == 0.0 <==> p == 0.0
  {
    if Prod(p, q) == 0.0 {
      MulCancel(p, 0.0, q);
    }
  }

  lemma MulPositive(p: real, q: real)
    requires p > 0.0 && q > 0.0
    ensures Prod(p, q) > 0.0
  {
  }

  lemma MulComm(p: real, q: real)
    ensures Prod(p, q) == Prod(q, p)
  {
  }

  lemma MulAssoc(p: real, q: real, r: real)
    ensures Prod(p, Prod(q, r)) == Prod(Prod(p, q), r)
  {
  }

  /** `(p * q) * (r * s) == (p * r) * (q * s)`. */
  lemma MulSwap(p: real, q: real, r: real, s: real)
    ensures Prod(Prod(p, q), Prod(r, s)) == Prod(Prod(p, r), Prod(q, s))
  {
    MulAssoc(p, q, Prod(r, s));
    MulAssoc(q, r, s);
    MulComm(q, r);
    MulAssoc(r, q, s);
    MulAssoc(p, r, Prod(q, s));
  }

  /** Scaling by a common factor distributes over sums and differences. */
  lemma MulDistrib(x: real, y: real, g: real)
    ensures Prod(x + y, g) == Prod(x, g) + Prod(y, g)
    ensures Prod(x - y, g) == Prod(x, g) - Prod(y, g)
  {
  }

  /** Scaling by a positive factor preserves order. */
  lemma MulOrder(x: real, y: real, g: real)
    requires g > 0.0
    ensures x < y <==> Prod(x, g) < Prod(y, g)
    ensures x == y <==> Prod(x, g) == Prod(y, g)
  {
    if Prod(x, g) == Prod(y, g) {
      MulCancel(x, y, g);
    }
    assert Prod(y, g) - Prod(x, g) == (y - x) * g;
    if x < y {
      MulPositive(y - x, g);
    }
    if y < x {
      MulPositive(x - y, g);
    }
  }

  /** The value `x / y` of a quantity converted into a unit worth `y` of the
      common unit scales back to `x`. */
  lemma RatioScale(x: real, y: real, g: real)
    requires y != 0.0
    ensures Prod(x / y, Prod(y, g)) == Prod(x, g)
  {
    MulAssoc(x / y, y, g);
    assert (x / y) * y == x;
  }

  function NatPow(b: nat, e: nat): nat
  {
    if e == 0 then 1 else b * NatPow(b, e - 1)
  }

  lemma {:induction false} NatPowPositive(b: nat, e: nat)
    requires b >= 1
    ensures NatPow(b, e) >= 1
  {
    if e > 0 {
      NatPowPositive(b, e - 1);
    }
  }

  /** For a base of at least 1 the power grows with the exponent. */
  lemma {:induction false} NatPowMonotone(b: nat, e1: nat, e2: nat)
    requires b >= 1 && e1 <= e2
    ensures NatPow(b, e1) <= NatPow(b, e2)
    decreases e2
  {
    if e1 < e2 {
      NatPowMonotone(b, e1, e2 - 1);
      NatPowPositive(b, e2 - 1);
    }
  }
}
