/** Unit matching and the operators built on it.  `matchUnits` brings two
    quantities to a common unit: it prefers one side's unit, divides the
    other side by one unit of it and normalises the ratio; when no unit is
    left, the ratio's value is the other side's value in the preferred unit.
    Both revisions are modelled: the current one also re-labels a zero value
    with the other side's unit without any conversion. */
module Matching {
  import opened Errors
  import opened Powers
  import opened UnitVectors
  import opened Quantities
  import opened Registry
  import opened Expansion
  import opened Unums

  /** The current revision (`unum/core.py`) and the legacy one (`unum/__init__.py`). */
  datatype Revision = Current | Legacy

  /** Whether two quantities with different units go through the conversion
      branch: always in the legacy revision, only with non-zero values in the
      current one. */
  predicate Converts(rev: Revision, a: Quantity, b: Quantity)
  {
    rev.Legacy? || (a.value != 0.0 && b.value != 0.0)
  }

  /** `revert`: `b`'s unit is preferred when it has fewer symbols, or as many
      and a higher maximum level. */
  ghost predicate Revert(t: Table, a: Unit, b: Unit)
    requires Registered(t, a) && Registered(t, b)
  {
    |a| > |b| || (|a| == |b| && MaxLevel(t, a.Keys) < MaxLevel(t, b.Keys))
  }

  /** The unit whose normalisation decides a match: the other side's unit over
      the preferred one. */
  ghost function RatioUnit(t: Table, a: Unit, b: Unit): Unit
    requires Registered(t, a) && Registered(t, b)
  {
    if Revert(t, a, b) then Diff(a, b) else Diff(b, a)
  }

  /** Substituting the derived symbol `v` alone cancels `u` completely. */
  ghost predicate Cancels(t: Table, u: Unit, v: string)
  {
    v in u && v in t && t[v].definition.Some? &&
    StepUnit(Quantity(1.0, u), v, t[v].definition.value) == map[]
  }

  /** `checkNoUnit`: ShouldBeUnitlessError exactly when there is a unit. */
  function CheckNoUnit(q: Quantity): (r: Option<Error>)
    ensures r.None? <==> q.unit == map[]
    ensures r.Some? ==> r.value == ShouldBeUnitless
  {
    if q.unit != map[] then Some(ShouldBeUnitless) else None
  }

  /** A normal form that a single substitution empties is empty. */
  lemma CancelsEmpty(t: Table, q: Quantity, n: Quantity, v: string)
    requires Stratified(t) && Registered(t, q.unit) && Sound(t) && Canonical(q.unit)
    requires NormalOf(t, q, n, false) && Cancels(t, q.unit, v)
    ensures n.unit == map[]
  {
    assert StepUnit(q, v, t[v].definition.value) == StepUnit(Quantity(1.0, q.unit), v, t[v].definition.value);
  }

  /** Such a normal form is the plain number the quantity expands to: for
      `m/cm` it is 100. */
  lemma CancelledValue(t: Table, q: Quantity, n: Quantity, v: string)
    requires Stratified(t) && Registered(t, q.unit) && Sound(t) && Canonical(q.unit)
    requires NormalOf(t, q, n, false) && Cancels(t, q.unit, v)
    ensures n.unit == map[] && Expand(t, q).unit == map[] && n.value == Expand(t, q).value
  {
    CancelsEmpty(t, q, n, v);
    assert Expand(t, n) == Expand(t, q);
    assert Expand(t, n).value == Prod(n.value, 1.0);
  }

  /** A value `w` with no unit that expands like `o` over one unit of `su` is
      `o`'s value in `su`. */
  lemma ConvertBack(t: Table, o: Quantity, su: Unit, w: real)
    requires Stratified(t) && Sound(t) && Registered(t, o.unit) && Registered(t, su)
    requires Canonical(o.unit) && Canonical(su)
    requires Expand(t, Quantity(w, map[])) == Expand(t, Quotient(o, Quantity(1.0, su)))
    ensures Expand(t, Quantity(w, su)) == Expand(t, o)
  {
    var target := Quantity(1.0, su);
    var inv := Power(target, -1);
    QuotientIsTimesInverse(o, target);
    ScaledExp(su, -1);
    ExpandTimes(t, o, inv);
    ExpandPower(t, target, -1);
    var eo, et := Expand(t, o), Expand(t, target);
    assert Expand(t, Quantity(w, map[])) == Quantity(w, map[]);
    var f := Factor(t, su);
    assert et == f;
    SumEmpty(f.unit);
    assert Expand(t, Quantity(w, su)) == Times(Quantity(w, map[]), et);
    TimesAssoc(eo, Power(et, -1), et);
    PowerSplit(et, -1, 1, 0);
    PowerOne(et);
    PowerZero(et);
    TimesOne(eo);
  }

  /** The conversion step of `matchUnits`: `o` divided by one unit of `su` and
      normalised; when no unit remains, its value is `o`'s value in `su`,
      otherwise the units are incompatible. */
  method ConvertTo(t: Table, o: Quantity, su: Unit) returns (r: Result<Quantity>)
    requires Stratified(t) && Registered(t, o.unit) && Registered(t, su)
    ensures r.Ok? ==> r.value.unit == su
    ensures r.Err? ==> r.error == IncompatibleUnits || (r.error == ZeroDivision && !Sound(t))
    ensures Sound(t) && Canonical(o.unit) && Canonical(su) && r.Ok? ==> Expand(t, r.value) == Expand(t, o)
    ensures Sound(t) && Canonical(o.unit) && Canonical(su) && Dimension(t, o.unit) != Dimension(t, su) ==>
      r == Err(IncompatibleUnits)
    ensures Sound(t) && Canonical(o.unit) && Canonical(su) && (exists v :: Cancels(t, Diff(o.unit, su), v)) ==> r.Ok?
  {
    var target := Quantity(1.0, su);
    var d := Div(o, target);
    var ratio := new Unum(d.value.unit, d.value.value);
    ghost var q := ratio.Current();
    var err := ratio.Normalize(t, false);
    if err.Some? {
      return Err(err.value);
    }
    if Sound(t) && Canonical(o.unit) && Canonical(su) && exists v :: Cancels(t, Diff(o.unit, su), v) {
      var v :| Cancels(t, Diff(o.unit, su), v);
      CancelsEmpty(t, q, ratio.Current(), v);
    }
    if ratio.unit != map[] {
      return Err(IncompatibleUnits);
    }
    r := Ok(Quantity(ratio.value, su));
    if Sound(t) && Canonical(o.unit) && Canonical(su) {
      assert ratio.Current() == Quantity(ratio.value, map[]);
      ConvertBack(t, o, su, ratio.value);
      ExpandScale(t, ratio.value, su);
      ExpandScale(t, o.value, o.unit);
    }
  }

  /** `matchUnits`: `a` and `b` expressed in one unit.  Equal units are
      returned as they are; in the current revision a zero value takes the
      other side's unit; otherwise the preferred side is kept and the other
      side converted, or IncompatibleUnitsError raised. */
  method MatchUnits(t: Table, rev: Revision, a: Quantity, b: Quantity) returns (r: Result<(Quantity, Quantity)>)
    requires Stratified(t) && Registered(t, a.unit) && Registered(t, b.unit)
    ensures a.unit == b.unit ==> r == Ok((a, b))
    ensures a.unit != b.unit && !Converts(rev, a, b) ==>
      r == if a.value == 0.0 then Ok((Quantity(0.0, b.unit), b)) else Ok((a, Quantity(0.0, a.unit)))
    ensures r.Ok? ==> r.value.0.unit == r.value.1.unit && (r.value.0.unit == a.unit || r.value.0.unit == b.unit)
    ensures a.unit != b.unit && Converts(rev, a, b) && r.Ok? ==>
      if Revert(t, a.unit, b.unit) then r.value.1 == b else r.value.0 == a
    ensures r.Err? ==> a.unit != b.unit && Converts(rev, a, b)
    ensures r.Err? ==> r.error == IncompatibleUnits || (r.error == ZeroDivision && !Sound(t))
    ensures Sound(t) && Canonical(a.unit) && Canonical(b.unit) && r.Ok? ==>
      Expand(t, r.value.0).value == Expand(t, a).value && Expand(t, r.value.1).value == Expand(t, b).value
    ensures Sound(t) && Canonical(a.unit) && Canonical(b.unit) && r.Ok? && Converts(rev, a, b) ==>
      Expand(t, r.value.0) == Expand(t, a) && Expand(t, r.value.1) == Expand(t, b)
    ensures (Sound(t) && Canonical(a.unit) && Canonical(b.unit) && Converts(rev, a, b) &&
             Dimension(t, a.unit) != Dimension(t, b.unit)) ==> r == Err(IncompatibleUnits)
    ensures (Sound(t) && Canonical(a.unit) && Canonical(b.unit) && a.unit != b.unit &&
             (exists v :: Cancels(t, RatioUnit(t, a.unit, b.unit), v))) ==> r.Ok?
  {
    if a.unit == b.unit {
      return Ok((a, b));
    }
    if rev.Current? && a.value == 0.0 {
      return Ok((Quantity(a.value, b.unit), b));
    }
    if rev.Current? && b.value == 0.0 {
      return Ok((a, Quantity(b.value, a.unit)));
    }
    var revert := |a.unit| > |b.unit|;
    if |a.unit| == |b.unit| {
      var levelA := MaxLevelOf(t, a.unit);
      var levelB := MaxLevelOf(t, b.unit);
      revert := levelA < levelB;
    }
    if revert {
      var c := ConvertTo(t, a, b.unit);
      if c.Err? {
        return Err(c.error);
      }
      r := Ok((c.value, b));
    } else {
      var c := ConvertTo(t, b, a.unit);
      if c.Err? {
        return Err(c.error);
      }
      r := Ok((a, c.value));
    }
  }
}
