/** Unit vectors: a map from unit symbol to integer exponent, as the `_unit`
    dictionary of a Python `Unum`.  A canonical vector stores no zero exponent.
    The spec functions `Sum`, `Diff` and `Scaled` say what multiplying,
    dividing and raising to a power do to the exponents; the methods
    `MulUnits`, `DivUnits` and `PowUnits` are the dictionary-updating loops of
    `__mul__`, `__div__`/`__floordiv__` and `__pow__`. */
module UnitVectors {

  type Unit = map<string, int>

  /** The exponent of `s` in `u` (Python's `u.get(s, 0)`). */
  function Exp(u: Unit, s: string): int
  {
    if s in u then u[s] else 0
  }

  predicate Canonical(u: Unit)
  {
    forall s :: s in u ==> u[s] != 0
  }

  /** Exponent-wise sum, without zero entries. */
  function Sum(a: Unit, b: Unit): Unit
  {
    map s | s in a.Keys + b.Keys && Exp(a, s) + Exp(b, s) != 0 :: Exp(a, s) + Exp(b, s)
  }

  /** Exponent-wise difference `a - b`, without zero entries. */
  function Diff(a: Unit, b: Unit): Unit
  {
    map s | s in a.Keys + b.Keys && Exp(a, s) - Exp(b, s) != 0 :: Exp(a, s) - Exp(b, s)
  }

  /** Every exponent multiplied by `k`; the empty vector when `k` is 0. */
  function Scaled(a: Unit, k: int): Unit
  {
    map s | s in a && a[s] * k != 0 :: a[s] * k
  }

  lemma SumExp(a: Unit, b: Unit)
    ensures Canonical(Sum(a, b))
    ensures forall s :: Exp(Sum(a, b), s) == Exp(a, s) + Exp(b, s)
  {
  }

  lemma DiffExp(a: Unit, b: Unit)
    ensures Canonical(Diff(a, b))
    ensures forall s :: Exp(Diff(a, b), s) == Exp(a, s) - Exp(b, s)
  {
  }

  lemma ScaledExp(a: Unit, k: int)
    ensures Canonical(Scaled(a, k))
    ensures forall s :: Exp(Scaled(a, k), s) == Exp(a, s) * k
  {
  }

  /** A canonical vector is determined by its exponents. */
  lemma CanonicalEq(a: Unit, b: Unit)
    requires Canonical(a) && Canonical(b)
    requires forall s :: Exp(a, s) == Exp(b, s)
    ensures a == b
  {
    assert forall s :: s in a <==> s in b by {
      forall s ensures s in a <==> s in b {
        assert Exp(a, s) == Exp(b, s);
      }
    }
    assert a.Keys == b.Keys;
    forall s | s in a ensures a[s] == b[s] {
      assert Exp(a, s) == Exp(b, s);
    }
  }

  /** Summing with the empty vector changes nothing on canonical input. */
  lemma SumEmpty(a: Unit)
    requires Canonical(a)
    ensures Sum(a, map[]) == a && Sum(map[], a) == a
  {
    SumExp(a, map[]);
    SumExp(map[], a);
    CanonicalEq(Sum(a, map[]), a);
    CanonicalEq(Sum(map[], a), a);
  }

  lemma SumComm(a: Unit, b: Unit)
    ensures Sum(a, b) == Sum(b, a)
  {
    SumExp(a, b);
    SumExp(b, a);
    CanonicalEq(Sum(a, b), Sum(b, a));
  }

  lemma SumAssoc(a: Unit, b: Unit, c: Unit)
    ensures Sum(Sum(a, b), c) == Sum(a, Sum(b, c))
  {
    SumExp(a, b);
    SumExp(b, c);
    SumExp(Sum(a, b), c);
    SumExp(a, Sum(b, c));
    CanonicalEq(Sum(Sum(a, b), c), Sum(a, Sum(b, c)));
  }

  /** Dividing is multiplying by the vector scaled by -1. */
  lemma DiffIsSum(a: Unit, b: Unit)
    ensures Diff(a, b) == Sum(a, Scaled(b, -1))
  {
    DiffExp(a, b);
    ScaledExp(b, -1);
    SumExp(a, Scaled(b, -1));
    CanonicalEq(Diff(a, b), Sum(a, Scaled(b, -1)));
  }

  /** `u ** (m + n) == u ** m * u ** n` on exponents. */
  lemma ScaledAdd(a: Unit, m: int, n: int)
    ensures Scaled(a, m + n) == Sum(Scaled(a, m), Scaled(a, n))
  {
    ScaledExp(a, m + n);
    ScaledExp(a, m);
    ScaledExp(a, n);
    SumExp(Scaled(a, m), Scaled(a, n));
    forall s ensures Exp(Scaled(a, m + n), s) == Exp(Sum(Scaled(a, m), Scaled(a, n)), s) {
      assert Exp(a, s) * (m + n) == Exp(a, s) * m + Exp(a, s) * n;
    }
    CanonicalEq(Scaled(a, m + n), Sum(Scaled(a, m), Scaled(a, n)));
  }

  lemma ScaledOne(a: Unit)
    requires Canonical(a)
    ensures Scaled(a, 1) == a
  {
    ScaledExp(a, 1);
    CanonicalEq(Scaled(a, 1), a);
  }

  /** Taking one symbol of `b` out of a sum only changes that symbol's exponent. */
  lemma SumRemove(a: Unit, b: Unit, k: string)
    requires k in b
    ensures Sum(a, b) - {k} == Sum(a, b - {k}) - {k}
    ensures Exp(Sum(a, b - {k}), k) == Exp(a, k)
    ensures Exp(Sum(a, b), k) == Exp(a, k) + b[k]
  {
    SumExp(a, b);
    SumExp(a, b - {k});
  }

  /** The loop of `__mul__`: start from a copy of `a` and add each exponent of
      `b`, deleting the symbols whose exponent becomes 0; an empty side gives
      the other side as it is. */
  method MulUnits(a: Unit, b: Unit) returns (r: Unit)
    ensures forall s :: Exp(r, s) == Exp(a, s) + Exp(b, s)
    ensures r.Keys <= a.Keys + b.Keys
    ensures a == map[] ==> r == b
    ensures b == map[] ==> r == a
    ensures Canonical(a) && Canonical(b) ==> r == Sum(a, b)
  {
    if a == map[] {
      r := b;
    } else if b == map[] {
      r := a;
    } else {
      r := a;
      var pending := b.Keys;
      while pending != {}
        invariant pending <= b.Keys
        invariant r.Keys <= a.Keys + b.Keys
        invariant forall s :: s in pending || s !in b ==> Exp(r, s) == Exp(a, s) && (s in r <==> s in a)
        invariant forall s :: s in b && s !in pending ==> Exp(r, s) == Exp(a, s) + b[s] && (s in r ==> r[s] != 0)
        decreases pending
      {
        var u :| u in pending;
        var exp := b[u] + Exp(r, u);
        if exp != 0 {
          r := r[u := exp];
        } else {
          r := r - {u};
        }
        pending := pending - {u};
      }
      assert forall s :: Exp(r, s) == Exp(a, s) + Exp(b, s);
    }
    if Canonical(a) && Canonical(b) {
      assert Canonical(r);
      SumExp(a, b);
      CanonicalEq(r, Sum(a, b));
    }
  }

  /** The loop of `__div__`: start from a copy of `a` and subtract each
      exponent of `b`, deleting the symbols whose exponent becomes 0; a
      unitless divisor gives `a` as it is. */
  method DivUnits(a: Unit, b: Unit) returns (r: Unit)
    ensures forall s :: Exp(r, s) == Exp(a, s) - Exp(b, s)
    ensures r.Keys <= a.Keys + b.Keys
    ensures b == map[] ==> r == a
    ensures Canonical(a) && Canonical(b) ==> r == Diff(a, b)
  {
    if b == map[] {
      r := a;
    } else {
      r := a;
      var pending := b.Keys;
      while pending != {}
        invariant pending <= b.Keys
        invariant r.Keys <= a.Keys + b.Keys
        invariant forall s :: s in pending || s !in b ==> Exp(r, s) == Exp(a, s) && (s in r <==> s in a)
        invariant forall s :: s in b && s !in pending ==> Exp(r, s) == Exp(a, s) - b[s] && (s in r ==> r[s] != 0)
        decreases pending
      {
        var u :| u in pending;
        var exp := b[u] - Exp(r, u);
        if exp != 0 {
          r := r[u := -exp];
        } else {
          r := r - {u};
        }
        pending := pending - {u};
      }
    }
    if Canonical(a) && Canonical(b) {
      assert Canonical(r);
      DiffExp(a, b);
      CanonicalEq(r, Diff(a, b));
    }
  }

  /** The loop of `__pow__` for a non-zero exponent `k`: every exponent of a
      copy of `a` is multiplied by `k`. */
  method PowUnits(a: Unit, k: int) returns (r: Unit)
    ensures r.Keys == a.Keys
    ensures forall s :: s in r ==> r[s] == a[s] * k
    ensures Canonical(a) && k != 0 ==> r == Scaled(a, k)
  {
    r := a;
    var pending := a.Keys;
    while pending != {}
      invariant pending <= a.Keys
      invariant r.Keys == a.Keys
      invariant forall s :: s in r ==> r[s] == if s in pending then a[s] else a[s] * k
      decreases pending
    {
      var u :| u in pending;
      r := r[u := r[u] * k];
      pending := pending - {u};
    }
    if Canonical(a) && k != 0 {
      ScaledExp(a, k);
      forall s ensures Exp(r, s) == Exp(Scaled(a, k), s) {
      }
      CanonicalEq(r, Scaled(a, k));
    }
  }
}
