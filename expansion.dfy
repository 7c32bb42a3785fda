/** Full expansion to base units: the meaning of "equivalent" that the
    normaliser and unit matching preserve.  Expanding replaces every derived
    symbol by its stored definition, recursively, until only base symbols
    remain.  It terminates because a definition only mentions symbols of a
    lower level. */
module Expansion {
  import opened Powers
  import opened UnitVectors
  import opened Quantities
  import opened Registry

  /** Every symbol of `u` is a registered base unit. */
  predicate AllBase(t: Table, u: Unit)
  {
    forall s :: s in u ==> s in t && t[s].definition.None?
  }

  /** One unit of `s`, expanded: itself when it is a base unit, its expanded
      definition otherwise. */
  ghost function ExpandSym(t: Table, s: string): (e: Quantity)
    requires Stratified(t) && Sound(t) && s in t
    ensures e.value != 0.0 && Canonical(e.unit)
    decreases t[s].level, 0, 0
  {
    match t[s].definition
    case None => Quantity(1.0, map[s := 1])
    case Some(d) =>
      DefinitionBelow(t, s);
      Expand(t, d)
  }

  /** The product of the expansions of `u`'s symbols, each raised to its exponent. */
  ghost function Factor(t: Table, u: Unit): (f: Quantity)
    requires Stratified(t) && Sound(t) && Registered(t, u)
    ensures f.value != 0.0 && Canonical(f.unit)
    decreases MaxLevel(t, u.Keys), 1, |u|
  {
    if u == map[] then One
    else
      var k :| k in u;
      MaxLevelUpper(t, u.Keys, k);
      MaxLevelSubset(t, (u - {k}).Keys, u.Keys);
      var rest := Factor(t, u - {k});
      var p := Power(ExpandSym(t, k), u[k]);
      PowerValue(ExpandSym(t, k), u[k]);
      MulNonZero(rest.value, p.value);
      SumExp(rest.unit, p.unit);
      Times(rest, p)
  }

  /** `q` with every symbol expanded to base units. */
  ghost function Expand(t: Table, q: Quantity): (e: Quantity)
    requires Stratified(t) && Sound(t) && Registered(t, q.unit)
    ensures Canonical(e.unit)
    ensures e.value == 0.0 <==> q.value == 0.0
    decreases MaxLevel(t, q.unit.Keys), 2, 0
  {
    var f := Factor(t, q.unit);
    MulZero(q.value, f.value);
    Quantity(Prod(q.value, f.value), f.unit)
  }

  /** The dimension of a unit: the base-unit vector it expands to. */
  ghost function Dimension(t: Table, u: Unit): Unit
    requires Stratified(t) && Sound(t) && Registered(t, u)
  {
    Factor(t, u).unit
  }

  // -- the expansion does not depend on the order the symbols are taken in --

  /** The fold may take out any symbol first. */
  lemma {:induction false} FactorPick(t: Table, u: Unit, k: string)
    requires Stratified(t) && Sound(t) && Registered(t, u) && k in u
    ensures Factor(t, u) == Times(Factor(t, u - {k}), Power(ExpandSym(t, k), u[k]))
    decreases |u|
  {
    var j :| j in u && Factor(t, u) == Times(Factor(t, u - {j}), Power(ExpandSym(t, j), u[j]));
    if j != k {
      var pj, pk := Power(ExpandSym(t, j), u[j]), Power(ExpandSym(t, k), u[k]);
      var rest := u - {j} - {k};
      assert u - {k} - {j} == rest;
      FactorPick(t, u - {j}, k);
      FactorPick(t, u - {k}, j);
      var fr := Factor(t, rest);
      assert Factor(t, u - {j}) == Times(fr, pk);
      assert Factor(t, u - {k}) == Times(fr, pj);
      calc {
        Factor(t, u);
        Times(Times(fr, pk), pj);
        { TimesAssoc(fr, pk, pj); TimesComm(pk, pj); TimesAssoc(fr, pj, pk); }
        Times(Times(fr, pj), pk);
      }
    }
  }

  /** As `FactorPick`, for a registered symbol that may be absent (exponent 0). */
  lemma FactorExp(t: Table, u: Unit, k: string)
    requires Stratified(t) && Sound(t) && Registered(t, u) && k in t
    ensures Factor(t, u) == Times(Factor(t, u - {k}), Power(ExpandSym(t, k), Exp(u, k)))
  {
    if k in u {
      FactorPick(t, u, k);
    } else {
      assert u - {k} == u;
      TimesOne(Factor(t, u));
    }
  }

  /** With positive definitions, every symbol expands to a positive amount. */
  lemma {:induction false} ExpandSymPositive(t: Table, s: string)
    requires Stratified(t) && PositiveDefs(t) && s in t
    ensures ExpandSym(t, s).value > 0.0
    decreases t[s].level, 0, 0
  {
    match t[s].definition
    case None =>
    case Some(d) =>
      DefinitionBelow(t, s);
      FactorPositive(t, d.unit);
      MulPositive(d.value, Factor(t, d.unit).value);
  }

  /** With positive definitions, every unit expands to a positive amount. */
  lemma {:induction false} FactorPositive(t: Table, u: Unit)
    requires Stratified(t) && PositiveDefs(t) && Registered(t, u)
    ensures Factor(t, u).value > 0.0
    decreases MaxLevel(t, u.Keys), 1, |u|
  {
    if u != map[] {
      var k :| k in u;
      FactorPick(t, u, k);
      MaxLevelUpper(t, u.Keys, k);
      MaxLevelSubset(t, (u - {k}).Keys, u.Keys);
      FactorPositive(t, u - {k});
      ExpandSymPositive(t, k);
      PowerValue(ExpandSym(t, k), u[k]);
      MulPositive(Factor(t, u - {k}).value, Power(ExpandSym(t, k), u[k]).value);
    }
  }

  // -- expansion is a homomorphism -------------------------------------------

  /** The exponent sum of two canonical units expands to the product of
      their expansions. */
  lemma {:induction false} FactorSum(t: Table, a: Unit, b: Unit)
    requires Stratified(t) && Sound(t) && Registered(t, a) && Registered(t, b)
    requires Canonical(a) && Canonical(b)
    ensures Registered(t, Sum(a, b))
    ensures Factor(t, Sum(a, b)) == Times(Factor(t, a), Factor(t, b))
    decreases |b|
  {
    if b == map[] {
      SumEmpty(a);
      TimesOne(Factor(t, a));
    } else {
      var k :| k in b;
      FactorSum(t, a, b - {k});
      FactorSumStep(t, a, b, k);
    }
  }

  /** One step of `FactorSum`: adding the exponent of `k` back. */
  lemma FactorSumStep(t: Table, a: Unit, b: Unit, k: string)
    requires Stratified(t) && Sound(t) && Registered(t, a) && Registered(t, b)
    requires Canonical(a) && Canonical(b) && k in b
    requires Registered(t, Sum(a, b - {k}))
    requires Factor(t, Sum(a, b - {k})) == Times(Factor(t, a), Factor(t, b - {k}))
    ensures Registered(t, Sum(a, b))
    ensures Factor(t, Sum(a, b)) == Times(Factor(t, a), Factor(t, b))
  {
    var c := Sum(a, b - {k});
    SumRemove(a, b, k);
    var e := ExpandSym(t, k);
    var x, y := Exp(c, k), b[k];
    FactorExp(t, Sum(a, b), k);
    FactorExp(t, c, k);
    FactorPick(t, b, k);
    PowerSplit(e, x, y, Exp(Sum(a, b), k));
    TimesRegroup(Factor(t, c - {k}), Power(e, x), Power(e, y), Factor(t, a), Factor(t, b - {k}));
  }

  /** Expanding a product multiplies the expansions. */
  lemma ExpandTimes(t: Table, a: Quantity, b: Quantity)
    requires Stratified(t) && Sound(t) && Registered(t, a.unit) && Registered(t, b.unit)
    requires Canonical(a.unit) && Canonical(b.unit)
    ensures Registered(t, Times(a, b).unit)
    ensures Expand(t, Times(a, b)) == Times(Expand(t, a), Expand(t, b))
  {
    FactorSum(t, a.unit, b.unit);
    var fa, fb := Factor(t, a.unit), Factor(t, b.unit);
    MulSwap(a.value, b.value, fa.value, fb.value);
  }

  lemma ExpandOne(t: Table)
    requires Stratified(t) && Sound(t)
    ensures Expand(t, One) == One
  {
  }

  /** Expanding an integer power raises the expansion to that power. */
  lemma {:induction false} ExpandPower(t: Table, a: Quantity, n: int)
    requires Stratified(t) && Sound(t) && Registered(t, a.unit) && Canonical(a.unit)
    requires a.value != 0.0
    ensures Registered(t, Power(a, n).unit) && Expand(t, a).value != 0.0
    ensures Expand(t, Power(a, n)) == Power(Expand(t, a), n)
    decreases if n >= 0 then n else -n
  {
    var ea := Expand(t, a);
    ScaledExp(a.unit, n);
    if n == 0 {
      PowerZero(a);
      PowerZero(ea);
      ExpandOne(t);
    } else if n > 0 {
      ExpandPower(t, a, n - 1);
      ScaledExp(a.unit, n - 1);
      PowerSucc(a, n - 1);
      ExpandTimes(t, Power(a, n - 1), a);
      PowerSucc(ea, n - 1);
    } else {
      ExpandPower(t, a, n + 1);
      ScaledExp(a.unit, n + 1);
      PowerSucc(a, n);
      ExpandTimes(t, Power(a, n), a);
      PowerSucc(ea, n);
      ScaledExp(ea.unit, n);
      TimesCancel(Expand(t, Power(a, n)), Power(ea, n), ea);
    }
  }

  /** One unit of a symbol expands like the symbol. */
  lemma ExpandUnitSymbol(t: Table, s: string)
    requires Stratified(t) && Sound(t) && s in t
    ensures Expand(t, Quantity(1.0, map[s := 1])) == ExpandSym(t, s)
  {
    var u := map[s := 1];
    FactorPick(t, u, s);
    assert u - {s} == map[];
    PowerOne(ExpandSym(t, s));
    TimesOne(ExpandSym(t, s));
  }

  /** Expansion scales with the value: the unit alone fixes the factor. */
  lemma ExpandScale(t: Table, c: real, u: Unit)
    requires Stratified(t) && Sound(t) && Registered(t, u)
    ensures Expand(t, Quantity(c, u)).unit == Dimension(t, u)
    ensures Expand(t, Quantity(c, u)).value == c * Expand(t, Quantity(1.0, u)).value
  {
  }

  /** The step of `replaced`: multiplying `q` without `u` by `u`'s definition
      raised to `u`'s exponent gives a quantity with the same expansion. */
  lemma ExpandReplaced(t: Table, q: Quantity, u: string)
    requires Stratified(t) && Sound(t) && Registered(t, q.unit) && Canonical(q.unit)
    requires u in q.unit && t[u].definition.Some?
    ensures Registered(t, Times(Quantity(q.value, q.unit - {u}), Power(t[u].definition.value, q.unit[u])).unit)
    ensures Expand(t, Times(Quantity(q.value, q.unit - {u}), Power(t[u].definition.value, q.unit[u]))) == Expand(t, q)
  {
    var d := t[u].definition.value;
    var e := q.unit[u];
    DefinitionBelow(t, u);
    var q1 := Quantity(q.value, q.unit - {u});
    var p := Power(d, e);
    ScaledExp(d.unit, e);
    ExpandTimes(t, q1, p);
    ExpandPower(t, d, e);
    FactorPick(t, q.unit, u);
    var f1, pu := Factor(t, q1.unit), Power(ExpandSym(t, u), e);
    assert Expand(t, p) == pu;
    MulAssoc(q.value, f1.value, pu.value);
  }
}
