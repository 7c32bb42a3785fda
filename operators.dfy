/** The operators that go through unit matching (`+`, `-`, the comparisons,
    `asNumber`, `asUnit`) and `**` with a quantity as exponent, which goes
    through normalisation. */
module Operators {
  import opened Errors
  import opened Powers
  import opened UnitVectors
  import opened Quantities
  import opened Registry
  import opened Expansion
  import opened Unums
  import opened Matching

  /** `__add__`: the matched values added, in the matched unit. */
  method Add(t: Table, rev: Revision, a: Quantity, b: Quantity) returns (r: Result<Quantity>)
    requires Stratified(t) && Registered(t, a.unit) && Registered(t, b.unit)
    ensures a.unit == b.unit ==> r == Ok(Quantity(a.value + b.value, a.unit))
    ensures a.unit != b.unit && !Converts(rev, a, b) ==> r == Ok(if a.value == 0.0 then b else a)
    ensures r.Ok? ==> r.value.unit == a.unit || r.value.unit == b.unit
    ensures a.unit != b.unit && Converts(rev, a, b) && r.Ok? ==>
      r.value.unit == if Revert(t, a.unit, b.unit) then b.unit else a.unit
    ensures r.Err? ==> r.error == IncompatibleUnits || (r.error == ZeroDivision && !Sound(t))
    ensures Sound(t) && Canonical(a.unit) && Canonical(b.unit) && r.Ok? ==>
      Expand(t, r.value).value == Expand(t, a).value + Expand(t, b).value
    ensures Sound(t) && Canonical(a.unit) && Canonical(b.unit) && r.Ok? && Converts(rev, a, b) ==>
      Expand(t, r.value).unit == Dimension(t, a.unit) == Dimension(t, b.unit)
    ensures (Sound(t) && Canonical(a.unit) && Canonical(b.unit) && Converts(rev, a, b) &&
             Dimension(t, a.unit) != Dimension(t, b.unit)) ==> r == Err(IncompatibleUnits)
    ensures (Sound(t) && Canonical(a.unit) && Canonical(b.unit) && a.unit != b.unit &&
             (exists v :: Cancels(t, RatioUnit(t, a.unit, b.unit), v))) ==> r.Ok?
  {
    var m := MatchUnits(t, rev, a, b);
    if m.Err? {
      return Err(m.error);
    }
    var (s, o) := m.value;
    r := Ok(Quantity(s.value + o.value, s.unit));
    if Sound(t) && Canonical(a.unit) && Canonical(b.unit) {
      SumExpanded(t, s, o, r.value, a, b, rev);
    }
  }

  /** `__sub__`: the matched values subtracted, in the matched unit. */
  method Sub(t: Table, rev: Revision, a: Quantity, b: Quantity) returns (r: Result<Quantity>)
    requires Stratified(t) && Registered(t, a.unit) && Registered(t, b.unit)
    ensures a.unit == b.unit ==> r == Ok(Quantity(a.value - b.value, a.unit))
    ensures a.unit != b.unit && !Converts(rev, a, b) ==>
      r == Ok(if a.value == 0.0 then Quantity(-b.value, b.unit) else a)
    ensures r.Ok? ==> r.value.unit == a.unit || r.value.unit == b.unit
    ensures a.unit != b.unit && Converts(rev, a, b) && r.Ok? ==>
      r.value.unit == if Revert(t, a.unit, b.unit) then b.unit else a.unit
    ensures r.Err? ==> r.error == IncompatibleUnits || (r.error == ZeroDivision && !Sound(t))
    ensures Sound(t) && Canonical(a.unit) && Canonical(b.unit) && r.Ok? ==>
      Expand(t, r.value).value == Expand(t, a).value - Expand(t, b).value
    ensures Sound(t) && Canonical(a.unit) && Canonical(b.unit) && r.Ok? && Converts(rev, a, b) ==>
      Expand(t, r.value).unit == Dimension(t, a.unit) == Dimension(t, b.unit)
    ensures (Sound(t) && Canonical(a.unit) && Canonical(b.unit) && Converts(rev, a, b) &&
             Dimension(t, a.unit) != Dimension(t, b.unit)) ==> r == Err(IncompatibleUnits)
    ensures (Sound(t) && Canonical(a.unit) && Canonical(b.unit) && a.unit != b.unit &&
             (exists v :: Cancels(t, RatioUnit(t, a.unit, b.unit), v))) ==> r.Ok?
  {
    var m := MatchUnits(t, rev, a, b);
    if m.Err? {
      return Err(m.error);
    }
    var (s, o) := m.value;
    r := Ok(Quantity(s.value - o.value, s.unit));
    if Sound(t) && Canonical(a.unit) && Canonical(b.unit) {
      SumExpanded(t, s, o, Quantity(s.value + o.value, s.unit), a, b, rev);
    }
  }

  /** The expansion of a sum or difference of matched quantities is the sum
      or difference of the expansions. */
  lemma SumExpanded(t: Table, s: Quantity, o: Quantity, sum: Quantity, a: Quantity, b: Quantity, rev: Revision)
    requires Stratified(t) && Sound(t) && Registered(t, s.unit) && s.unit == o.unit
    requires Registered(t, a.unit) && Registered(t, b.unit)
    requires Expand(t, s).value == Expand(t, a).value && Expand(t, o).value == Expand(t, b).value
    requires Converts(rev, a, b) ==> Expand(t, s) == Expand(t, a) && Expand(t, o) == Expand(t, b)
    ensures Expand(t, Quantity(s.value + o.value, s.unit)).value == Expand(t, a).value + Expand(t, b).value
    ensures Expand(t, Quantity(s.value - o.value, s.unit)).value == Expand(t, a).value - Expand(t, b).value
    ensures Converts(rev, a, b) ==>
      Expand(t, Quantity(s.value + o.value, s.unit)).unit == Dimension(t, a.unit) == Dimension(t, b.unit) &&
      Expand(t, Quantity(s.value - o.value, s.unit)).unit == Dimension(t, a.unit)
  {
    var g := Factor(t, s.unit).value;
    MulDistrib(s.value, o.value, g);
    ExpandScale(t, s.value, s.unit);
    ExpandScale(t, a.value, a.unit);
    ExpandScale(t, b.value, b.unit);
  }

  /** The six comparison operators of the current revision. */
  datatype Relop = Lt | Le | Gt | Ge | Eq | Ne

  predicate Holds(op: Relop, x: real, y: real)
  {
    match op
    case Lt => x < y
    case Le => x <= y
    case Gt => x > y
    case Ge => x >= y
    case Eq => x == y
    case Ne => x != y
  }

  /** Comparing values scaled by one non-zero factor: equality is kept, and
      with a positive factor every comparison is. */
  lemma HoldsScaled(op: Relop, x: real, y: real, g: real)
    requires g != 0.0
    requires g > 0.0 || op == Eq || op == Ne
    ensures Holds(op, Prod(x, g), Prod(y, g)) == Holds(op, x, y)
  {
    if g > 0.0 {
      MulOrder(x, y, g);
      MulOrder(y, x, g);
    } else if Prod(x, g) == Prod(y, g) {
      MulCancel(x, y, g);
    }
  }

  /** `__lt__` … `__ne__` of the current revision: the matched values
      compared.  They raise IncompatibleUnitsError, equality included, when no
      common unit exists. */
  method Relation(t: Table, op: Relop, a: Quantity, b: Quantity) returns (r: Result<bool>)
    requires Stratified(t) && Registered(t, a.unit) && Registered(t, b.unit)
    ensures (a.unit == b.unit || !Converts(Current, a, b)) ==> r == Ok(Holds(op, a.value, b.value))
    ensures r.Err? ==> r.error == IncompatibleUnits || (r.error == ZeroDivision && !Sound(t))
    ensures PositiveDefs(t) && Canonical(a.unit) && Canonical(b.unit) && r.Ok? ==>
      r.value == Holds(op, Expand(t, a).value, Expand(t, b).value)
    ensures Sound(t) && Canonical(a.unit) && Canonical(b.unit) && r.Ok? && (op == Eq || op == Ne) ==>
      r.value == Holds(op, Expand(t, a).value, Expand(t, b).value)
    ensures (Sound(t) && Canonical(a.unit) && Canonical(b.unit) && Converts(Current, a, b) &&
             Dimension(t, a.unit) != Dimension(t, b.unit)) ==> r == Err(IncompatibleUnits)
    ensures (Sound(t) && Canonical(a.unit) && Canonical(b.unit) && a.unit != b.unit &&
             (exists v :: Cancels(t, RatioUnit(t, a.unit, b.unit), v))) ==> r.Ok?
  {
    var m := MatchUnits(t, Current, a, b);
    if m.Err? {
      return Err(m.error);
    }
    var (s, o) := m.value;
    r := Ok(Holds(op, s.value, o.value));
    if Sound(t) && Canonical(a.unit) && Canonical(b.unit) && (PositiveDefs(t) || op == Eq || op == Ne) {
      var g := Factor(t, s.unit).value;
      if PositiveDefs(t) {
        FactorPositive(t, s.unit);
      }
      HoldsScaled(op, s.value, o.value, g);
    }
  }

  /** Python 2's `cmp`. */
  function Cmp(x: real, y: real): int
  {
    if x < y then -1 else if x == y then 0 else 1
  }

  /** `__cmp__` of the legacy revision: `cmp` of the matched values, which
      with positive definitions is `cmp` of the expanded magnitudes. */
  method LegacyCompare(t: Table, a: Quantity, b: Quantity) returns (r: Result<int>)
    requires Stratified(t) && Registered(t, a.unit) && Registered(t, b.unit)
    ensures a.unit == b.unit ==> r == Ok(Cmp(a.value, b.value))
    ensures r.Ok? ==> -1 <= r.value <= 1
    ensures r.Err? ==> r.error == IncompatibleUnits || (r.error == ZeroDivision && !Sound(t))
    ensures PositiveDefs(t) && Canonical(a.unit) && Canonical(b.unit) && r.Ok? ==>
      r.value == Cmp(Expand(t, a).value, Expand(t, b).value)
    ensures (Sound(t) && Canonical(a.unit) && Canonical(b.unit) &&
             Dimension(t, a.unit) != Dimension(t, b.unit)) ==> r == Err(IncompatibleUnits)
    ensures (Sound(t) && Canonical(a.unit) && Canonical(b.unit) && a.unit != b.unit &&
             (exists v :: Cancels(t, RatioUnit(t, a.unit, b.unit), v))) ==> r.Ok?
  {
    var m := MatchUnits(t, Legacy, a, b);
    if m.Err? {
      return Err(m.error);
    }
    var (s, o) := m.value;
    r := Ok(Cmp(s.value, o.value));
    if PositiveDefs(t) && Canonical(a.unit) && Canonical(b.unit) {
      var g := Factor(t, s.unit).value;
      FactorPositive(t, s.unit);
      MulOrder(s.value, o.value, g);
    }
  }

  /** The optional argument of `asNumber`: none, a unit, or a plain number. */
  datatype Target = NoTarget | UnitTarget(unit: Quantity) | NumberTarget(number: real)

  /** `asNumber`: without a target, the value of a normalised copy; with a
      unit, the value in that unit (`ValueIn`); with a number, the value of a
      normalised, unitless copy divided by it (`ValueOver`). */
  method AsNumber(t: Table, rev: Revision, a: Quantity, target: Target) returns (r: Result<real>)
    requires Stratified(t) && Registered(t, a.unit)
    requires target.UnitTarget? ==> Registered(t, target.unit.unit)
    ensures target.NoTarget? ==> (r.Ok? ==> exists n :: NormalOf(t, a, n, false) && r.value == n.value)
    ensures target.NoTarget? && NoDerived(t, a.unit) ==> r == Ok(a.value)
    ensures target.NoTarget? && r.Err? ==> r.error == ZeroDivision && !Sound(t)
    ensures target.NoTarget? && Sound(t) && Canonical(a.unit) ==> r.Ok?
    ensures target.NoTarget? && Sound(t) && Canonical(a.unit) && (exists v :: Cancels(t, a.unit, v)) ==>
      r == Ok(Expand(t, a).value)
    ensures target.UnitTarget? ==> Valued(t, rev, a, target.unit, r)
    ensures target.NumberTarget? ==> Divided(t, a, target.number, r)
  {
    match target
    case NoTarget =>
      var n := NormalCopy(t, a);
      if n.Err? {
        return Err(n.error);
      }
      r := Ok(n.value.value);
      if Sound(t) && Canonical(a.unit) && exists v :: Cancels(t, a.unit, v) {
        var v :| Cancels(t, a.unit, v);
        CancelledValue(t, a, n.value, v);
      }
    case UnitTarget(q) =>
      r := ValueIn(t, rev, a, q);
    case NumberTarget(x) =>
      r := ValueOver(t, a, x);
  }

  /** What `asNumber` with the unit `q` promises of its result `r`. */
  ghost predicate Valued(t: Table, rev: Revision, a: Quantity, q: Quantity, r: Result<real>)
    requires Stratified(t) && Registered(t, a.unit) && Registered(t, q.unit)
  {
    (q.value != 1.0 ==> r == Err(NonBasicUnit)) &&
    (q.value == 1.0 && a.unit == q.unit ==> r == Ok(a.value)) &&
    (q.value == 1.0 && rev.Current? && a.value == 0.0 ==> r == Ok(0.0)) &&
    ((Sound(t) && Canonical(a.unit) && Canonical(q.unit) && Converts(rev, a, q) && r.Ok?) ==>
       Expand(t, Quantity(r.value, q.unit)) == Expand(t, a)) &&
    ((q.value == 1.0 && Sound(t) && Canonical(a.unit) && Canonical(q.unit) && Converts(rev, a, q) &&
      Dimension(t, a.unit) != Dimension(t, q.unit)) ==> r == Err(IncompatibleUnits)) &&
    ((q.value == 1.0 && Sound(t) && Canonical(a.unit) && Canonical(q.unit) && a.unit != q.unit &&
      (exists v :: Cancels(t, RatioUnit(t, a.unit, q.unit), v))) ==> r.Ok?) &&
    (r.Err? ==> r.error in {NonBasicUnit, IncompatibleUnits, ZeroDivision}) &&
    (r.Err? && r.error == ZeroDivision ==> !Sound(t) || !Canonical(a.unit) || !Canonical(q.unit))
  }

  /** What `asNumber` with the number `x` promises of its result `r`. */
  ghost predicate Divided(t: Table, a: Quantity, x: real, r: Result<real>)
    requires Stratified(t) && Registered(t, a.unit)
  {
    (a.unit == map[] ==> r == if x == 0.0 then Err(ZeroDivision) else Ok(a.value / x)) &&
    (r.Ok? ==> x != 0.0 && exists n :: NormalOf(t, a, n, false) && n.unit == map[] && r.value == n.value / x) &&
    (NoDerived(t, a.unit) && a.unit != map[] ==> r == Err(ShouldBeUnitless)) &&
    ((Sound(t) && Canonical(a.unit) && Dimension(t, a.unit) != map[]) ==> r == Err(ShouldBeUnitless)) &&
    (r.Err? ==> r.error in {ShouldBeUnitless, ZeroDivision}) &&
    (Sound(t) && Canonical(a.unit) && x != 0.0 && (exists v :: Cancels(t, a.unit, v)) ==>
       r == Ok(Expand(t, a).value / x)) &&
    (r.Err? && r.error == ZeroDivision ==> x == 0.0 || !Sound(t))
  }

  /** The unit branch of `asNumber` (and of `asUnit`): `q` must have the
      value 1 (NonBasicUnitError otherwise); the result is the matched value
      of `a` over the matched value of `q`. */
  method ValueIn(t: Table, rev: Revision, a: Quantity, q: Quantity) returns (r: Result<real>)
    requires Stratified(t) && Registered(t, a.unit) && Registered(t, q.unit)
    ensures Valued(t, rev, a, q, r)
  {
    if q.value == 0.0 || q.value != 1.0 {
      return Err(NonBasicUnit);
    }
    var m := MatchUnits(t, rev, a, q);
    if m.Err? {
      return Err(m.error);
    }
    var (s, o) := m.value;
    if Sound(t) && Canonical(a.unit) && Canonical(q.unit) {
      assert Expand(t, q).value != 0.0;
    }
    if o.value == 0.0 {
      return Err(ZeroDivision);
    }
    r := Ok(s.value / o.value);
    if Sound(t) && Canonical(a.unit) && Canonical(q.unit) && Converts(rev, a, q) {
      InUnit(t, s, o, a, q);
    }
  }

  /** The number branch of `asNumber`: a normalised copy, which must be
      unitless, divided by `x`. */
  method ValueOver(t: Table, a: Quantity, x: real) returns (r: Result<real>)
    requires Stratified(t) && Registered(t, a.unit)
    ensures Divided(t, a, x, r)
  {
    var n := NormalCopy(t, a);
    if n.Err? {
      return Err(n.error);
    }
    if Sound(t) && Canonical(a.unit) {
      UnitlessDimension(t, a, n.value);
      if exists v :: Cancels(t, a.unit, v) {
        var v :| Cancels(t, a.unit, v);
        CancelledValue(t, a, n.value, v);
      }
    }
    var unitless := CheckNoUnit(n.value);
    if unitless.Some? {
      return Err(unitless.value);
    }
    if x == 0.0 {
      return Err(ZeroDivision);
    }
    r := Ok(n.value.value / x);
  }

  /** `copy(True)` on a value: a normalised copy (not for display). */
  method NormalCopy(t: Table, a: Quantity) returns (r: Result<Quantity>)
    requires Stratified(t) && Registered(t, a.unit)
    ensures r.Ok? ==> NormalOf(t, a, r.value, false)
    ensures r.Err? ==> r.error == ZeroDivision && !Sound(t)
    ensures NoDerived(t, a.unit) ==> r == Ok(a)
    ensures Sound(t) && Canonical(a.unit) ==> r.Ok?
  {
    var u := new Unum(a.unit, a.value);
    var c, err := u.Copy(t, true);
    if err.Some? {
      return Err(err.value);
    }
    r := Ok(c.Current());
  }

  /** A normal form with no unit only exists for a dimensionless quantity. */
  lemma UnitlessDimension(t: Table, a: Quantity, n: Quantity)
    requires Stratified(t) && Sound(t) && Registered(t, a.unit) && Canonical(a.unit)
    requires NormalOf(t, a, n, false)
    ensures n.unit == map[] ==> Dimension(t, a.unit) == map[]
  {
    ExpandScale(t, a.value, a.unit);
    ExpandScale(t, n.value, n.unit);
  }

  /** The value of `s` over the value of `o`, matched to `a` and one unit `q`,
      is `a`'s value in `q`. */
  lemma InUnit(t: Table, s: Quantity, o: Quantity, a: Quantity, q: Quantity)
    requires Stratified(t) && Sound(t) && Registered(t, s.unit) && s.unit == o.unit && o.value != 0.0
    requires Registered(t, a.unit) && Registered(t, q.unit)
    requires Expand(t, s) == Expand(t, a) && Expand(t, o) == Expand(t, q) && q.value == 1.0
    ensures Expand(t, Quantity(s.value / o.value, q.unit)) == Expand(t, a)
  {
    var g, fq := Factor(t, s.unit), Factor(t, q.unit);
    assert Prod(o.value, g.value) == Prod(1.0, fq.value);
    RatioScale(s.value, o.value, g.value);
  }

  /** `asUnit`: the value in the unit `q` (which must have the value 1), as a
      new unum in `q`'s unit flagged normal. */
  method AsUnit(t: Table, rev: Revision, a: Quantity, q: Quantity) returns (r: Result<Unum>)
    requires Stratified(t) && Registered(t, a.unit) && Registered(t, q.unit)
    ensures r.Ok? ==> fresh(r.value) && r.value.normal && r.value.unit == q.unit
    ensures q.value != 1.0 ==> r == Err(NonBasicUnit)
    ensures (Sound(t) && Canonical(a.unit) && Canonical(q.unit) && Converts(rev, a, q) && r.Ok?) ==>
      Expand(t, r.value.Current()) == Expand(t, a)
    ensures (q.value == 1.0 && Sound(t) && Canonical(a.unit) && Canonical(q.unit) && Converts(rev, a, q) &&
             Dimension(t, a.unit) != Dimension(t, q.unit)) ==> r == Err(IncompatibleUnits)
    ensures q.value == 1.0 && a.unit == q.unit ==> r.Ok? && r.value.Current() == a
    ensures (q.value == 1.0 && Sound(t) && Canonical(a.unit) && Canonical(q.unit) && a.unit != q.unit &&
             (exists v :: Cancels(t, RatioUnit(t, a.unit, q.unit), v))) ==> r.Ok?
    ensures r.Err? ==> r.error in {NonBasicUnit, IncompatibleUnits, ZeroDivision}
    ensures r.Err? && r.error == ZeroDivision ==> !Sound(t) || !Canonical(a.unit) || !Canonical(q.unit)
  {
    var x := ValueIn(t, rev, a, q);
    if x.Err? {
      return Err(x.error);
    }
    var u := new Unum(q.unit, x.value);
    u.Fix();
    r := Ok(u);
  }

  /** The end of `__pow__`: the exponent's normalised value `e` multiplies
      every exponent of the unit, and `a`'s value is raised to it. */
  method PowBy(a: Quantity, e: real) returns (r: Result<Quantity>)
    ensures e != e.Floor as real ==> r == Err(NonIntegerExponent)
    ensures e == 0.0 ==> r.Ok? && r.value.value == 1.0 && r.value.unit.Keys == a.unit.Keys
    ensures e == e.Floor as real && e != 0.0 && Canonical(a.unit) ==>
      r == if a.value == 0.0 && e < 0.0 then Err(ZeroDivision) else Ok(Power(a, e.Floor))
    ensures r.Err? ==> r.error in {NonIntegerExponent, ZeroDivision}
  {
    if e != e.Floor as real {
      return Err(NonIntegerExponent);
    }
    var k := e.Floor;
    if k == 0 {
      var unit := PowUnits(a.unit, 0);
      return Ok(Quantity(1.0, unit));
    }
    r := PowInt(a, k);
  }

  /** `__pow__` with a quantity exponent: a zero exponent gives 1 with no
      unit; otherwise the exponent is normalised, must be unitless, and its
      value (an integer in this model) multiplies every exponent. */
  method Pow(t: Table, a: Quantity, x: Quantity) returns (r: Result<Quantity>)
    requires Stratified(t) && Registered(t, x.unit)
    ensures x.value == 0.0 ==> r == Ok(Quantity(1.0, map[]))
    ensures x.unit == map[] && x.value != x.value.Floor as real ==> r == Err(NonIntegerExponent)
    ensures x.unit == map[] && x.value == x.value.Floor as real && x.value != 0.0 && Canonical(a.unit) ==>
      r == if a.value == 0.0 && x.value < 0.0 then Err(ZeroDivision) else Ok(Power(a, x.value.Floor))
    ensures x.value != 0.0 && NoDerived(t, x.unit) && x.unit != map[] ==> r == Err(ShouldBeUnitless)
    ensures (x.value != 0.0 && Sound(t) && Canonical(x.unit) && Dimension(t, x.unit) != map[]) ==>
      r == Err(ShouldBeUnitless)
    ensures (x.value != 0.0 && Sound(t) && Canonical(x.unit) && Canonical(a.unit) && r.Ok?) ==>
      exists k: int :: Expand(t, x) == Quantity(k as real, map[]) && (a.value != 0.0 || k >= 0) &&
                       r.value == Power(a, k)
    ensures (x.value != 0.0 && Sound(t) && Canonical(x.unit) && Canonical(a.unit) &&
             (exists v :: Cancels(t, x.unit, v))) ==>
      var e := Expand(t, x).value;
      r == if e != e.Floor as real then Err(NonIntegerExponent)
           else if a.value == 0.0 && e < 0.0 then Err(ZeroDivision)
           else Ok(Power(a, e.Floor))
    ensures r.Err? ==> r.error in {ShouldBeUnitless, NonIntegerExponent, ZeroDivision}
  {
    if x.value == 0.0 {
      return Ok(Quantity(1.0, map[]));
    }
    var n := NormalCopy(t, x);
    if n.Err? {
      return Err(n.error);
    }
    if Sound(t) && Canonical(x.unit) && exists v :: Cancels(t, x.unit, v) {
      var v :| Cancels(t, x.unit, v);
      CancelledValue(t, x, n.value, v);
    }
    var unitless := CheckNoUnit(n.value);
    if unitless.Some? {
      if Sound(t) && Canonical(x.unit) {
        UnitlessDimension(t, x, n.value);
      }
      return Err(unitless.value);
    }
    r := PowBy(a, n.value.value);
    if Sound(t) && Canonical(x.unit) {
      UnitlessDimension(t, x, n.value);
      assert Expand(t, n.value) == Quantity(n.value.value, map[]);
    }
  }
}
