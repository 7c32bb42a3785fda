/** Scenarios from the repository's tests, each on a small registry holding
    the units it needs. */
module Scenarios {
  import opened Errors
  import opened Powers
  import opened UnitVectors
  import opened Quantities
  import opened Registry
  import opened Expansion
  import opened Unums
  import opened Matching
  import opened Operators
  import opened Formatting

  function Sym(s: string): Unit
  {
    map[s := 1]
  }

  /** One unit of the symbol `s`. */
  function U(s: string): Quantity
  {
    Quantity(1.0, Sym(s))
  }

  const Base := Entry(None, 0, "")

  /** Kilograms and grams. */
  const Mass: Table := map["kg" := Base, "g" := Entry(Some(Quantity(0.001, Sym("kg"))), 1, "gram")]

  lemma MassValid()
    ensures Stratified(Mass) && PositiveDefs(Mass)
  {
    assert Mass.Keys == {"kg", "g"};
  }

  /** `kg.asNumber(2 * g)` is an error: the target is not one unit. */
  method KilogramInTwoGrams() returns (r: Result<real>)
    ensures r == Err(NonBasicUnit)
  {
    MassValid();
    r := AsNumber(Mass, Current, U("kg"), UnitTarget(Quantity(2.0, Sym("g"))));
  }

  lemma MaxLevelOne(t: Table, s: string)
    requires s in t
    ensures MaxLevel(t, {s}) == t[s].level
  {
    MaxLevelUpper(t, {s}, s);
    MaxLevelLeast(t, {s}, t[s].level);
  }

  /** One unit of a symbol expands to its definition's expansion, or to
      itself for a base unit. */
  lemma ExpandOneUnit(t: Table, s: string)
    requires Stratified(t) && Sound(t) && s in t
    ensures t[s].definition.None? ==> Expand(t, U(s)) == U(s)
    ensures t[s].definition.Some? ==> Expand(t, U(s)) == Expand(t, t[s].definition.value)
  {
    ExpandUnitSymbol(t, s);
    if t[s].definition.Some? {
      DefinitionBelow(t, s);
    }
  }

  /** One `x` over one `y`, for distinct symbols, cancels when `y` is
      replaced by a multiple of `x`. */
  lemma PerUnit(x: string, y: string, c: real)
    requires x != y
    ensures Diff(Sym(x), Sym(y)) == map[x := 1, y := -1]
    ensures StepUnit(Quantity(1.0, map[x := 1, y := -1]), y, Quantity(c, Sym(x))) == map[]
  {
    assert map[x := 1, y := -1] - {y} == Sym(x);
    assert Scaled(Sym(x), -1) == map[x := -1];
  }

  /** A kilogram over a gram cancels in one substitution of the gram. */
  lemma KilogramPerGramCancels()
    ensures Stratified(Mass) && Sound(Mass)
    ensures Cancels(Mass, RatioUnit(Mass, Sym("kg"), Sym("g")), "g")
  {
    MassValid();
    MaxLevelOne(Mass, "kg");
    MaxLevelOne(Mass, "g");
    PerUnit("kg", "g", 0.001);
  }

  lemma KilogramExpands()
    ensures Stratified(Mass) && Sound(Mass) && Expand(Mass, U("kg")) == U("kg")
  {
    MassValid();
    ExpandOneUnit(Mass, "kg");
  }

  /** `x` grams expand to `x / 1000` kilograms. */
  lemma GramsExpand(x: real)
    ensures Stratified(Mass) && Sound(Mass)
    ensures Expand(Mass, Quantity(x, Sym("g"))) == Quantity(x * 0.001, Sym("kg"))
  {
    MassValid();
    ExpandOneUnit(Mass, "kg");
    ExpandOneUnit(Mass, "g");
    ExpandScale(Mass, 0.001, Sym("kg"));
    ExpandScale(Mass, x, Sym("g"));
  }

  /** `kg.asNumber(g)` is 1000. */
  method KilogramInGrams() returns (r: Result<real>)
    ensures r == Ok(1000.0)
  {
    KilogramPerGramCancels();
    KilogramExpands();
    r := AsNumber(Mass, Current, U("kg"), UnitTarget(U("g")));
    GramsExpand(r.value);
  }

  // -- addition -----------------------------------------------------------

  /** Kilograms and seconds, two base units. */
  const MassTime: Table := map["kg" := Base, "s" := Base]

  lemma MassTimeValid()
    ensures Stratified(MassTime) && PositiveDefs(MassTime)
    ensures Expand(MassTime, U("kg")) == U("kg") && Expand(MassTime, U("s")) == U("s")
    ensures Dimension(MassTime, Sym("kg")) != Dimension(MassTime, Sym("s"))
  {
    assert MassTime.Keys == {"kg", "s"};
    ExpandOneUnit(MassTime, "kg");
    ExpandOneUnit(MassTime, "s");
    ExpandScale(MassTime, 1.0, Sym("kg"));
    ExpandScale(MassTime, 1.0, Sym("s"));
    assert "kg" !in Sym("s");
  }

  /** Adding quantities in one unit adds the values: `1 g + 2 g == 3 g`. */
  method GramsPlusGrams() returns (r: Result<Quantity>)
    ensures r == Ok(Quantity(3.0, Sym("g")))
  {
    MassValid();
    r := Add(Mass, Current, U("g"), Quantity(2.0, Sym("g")));
  }

  /** A mass plus a time raises IncompatibleUnitsError. */
  method MassPlusTime() returns (r: Result<Quantity>)
    ensures r == Err(IncompatibleUnits)
  {
    MassTimeValid();
    r := Add(MassTime, Current, U("kg"), U("s"));
  }

  /** A zero takes the other side's unit in the current revision; the
      legacy one converts and fails. */
  method ZeroPlusMass() returns (current: Result<Quantity>, legacy: Result<Quantity>)
    ensures current == Ok(Quantity(5.0, Sym("kg")))
    ensures legacy == Err(IncompatibleUnits)
  {
    MassTimeValid();
    ExpandScale(MassTime, 0.0, Sym("s"));
    ExpandScale(MassTime, 5.0, Sym("kg"));
    current := Add(MassTime, Current, Quantity(0.0, Sym("s")), Quantity(5.0, Sym("kg")));
    legacy := Add(MassTime, Legacy, Quantity(0.0, Sym("s")), Quantity(5.0, Sym("kg")));
  }

  // -- powers ---------------------------------------------------------------

  /** A mass to the power of a time: the exponent must be unitless. */
  method MassToTime() returns (r: Result<Quantity>)
    ensures r == Err(ShouldBeUnitless)
  {
    MassTimeValid();
    assert NoDerived(MassTime, Sym("s")) && "s" in Sym("s");
    r := Pow(MassTime, U("kg"), U("s"));
  }

  /** `(5/6 g) ** 2 == 25/36 g2`, exact as with `Fraction`s. */
  method FractionSquared() returns (r: Result<Quantity>)
    ensures r == Ok(Quantity(25.0 / 36.0, map["g" := 2]))
  {
    MassValid();
    r := Pow(Mass, Quantity(5.0 / 6.0, Sym("g")), Quantity(2.0, map[]));
    assert IntPow(5.0 / 6.0, 2) == 25.0 / 36.0;
    assert Scaled(Sym("g"), 2) == map["g" := 2];
  }

  /** A non-integer exponent is refused. */
  method HalfPower() returns (r: Result<Quantity>)
    ensures r == Err(NonIntegerExponent)
  {
    MassValid();
    r := Pow(Mass, U("g"), Quantity(0.5, map[]));
  }

  // -- conversion -----------------------------------------------------------

  /** Seconds and minutes. */
  const Time: Table := map["s" := Base, "min" := Entry(Some(Quantity(60.0, Sym("s"))), 1, "minute")]

  lemma TimeValid()
    ensures Stratified(Time) && PositiveDefs(Time)
  {
    assert Time.Keys == {"s", "min"};
  }

  /** A second over a minute cancels in one substitution of the minute. */
  lemma SecondPerMinuteCancels()
    ensures Stratified(Time) && Sound(Time)
    ensures Cancels(Time, RatioUnit(Time, Sym("min"), Sym("s")), "min")
  {
    TimeValid();
    MaxLevelOne(Time, "s");
    MaxLevelOne(Time, "min");
    PerUnit("s", "min", 60.0);
  }

  lemma MinuteExpands()
    ensures Stratified(Time) && Sound(Time)
    ensures Expand(Time, U("min")) == Quantity(60.0, Sym("s"))
  {
    TimeValid();
    ExpandOneUnit(Time, "s");
    ExpandOneUnit(Time, "min");
    ExpandScale(Time, 60.0, Sym("s"));
  }

  lemma SecondsExpand(x: real)
    ensures Stratified(Time) && Sound(Time)
    ensures Expand(Time, Quantity(x, Sym("s"))) == Quantity(x, Sym("s"))
  {
    TimeValid();
    ExpandOneUnit(Time, "s");
    ExpandScale(Time, x, Sym("s"));
  }

  /** `min.asUnit(s) == 60 s`. */
  method MinuteAsSeconds() returns (r: Result<Unum>)
    ensures r.Ok? && r.value.Current() == Quantity(60.0, Sym("s")) && r.value.normal
  {
    SecondPerMinuteCancels();
    MinuteExpands();
    r := AsUnit(Time, Current, U("min"), U("s"));
    SecondsExpand(r.value.value);
  }

  // -- mechanics --------------------------------------------------------------

  const NewtonDef := Quantity(1.0, map["kg" := 1, "m" := 1, "s" := -2])
  const NewtonMetre := Quantity(1.0, map["N" := 1, "m" := 1])

  /** Kilograms, metres and seconds, newtons defined on them and joules on
      newtons. */
  const Mech: Table := map["kg" := Base, "m" := Base, "s" := Base,
                           "N" := Entry(Some(NewtonDef), 1, "newton"),
                           "J" := Entry(Some(NewtonMetre), 2, "joule")]

  lemma MechValid()
    ensures Stratified(Mech) && PositiveDefs(Mech)
    ensures Registered(Mech, NewtonMetre.unit) && "J" in Mech && Mech["J"].definition == Some(NewtonMetre)
  {
    assert Mech.Keys == {"kg", "m", "s", "N", "J"};
  }

  lemma NewtonMetrePerJoule()
    ensures Diff(map["N" := 1, "m" := 1], map["J" := 1]) == map["N" := 1, "m" := 1, "J" := -1]
    ensures map["N" := 1, "m" := 1, "J" := -1] - {"J"} == map["N" := 1, "m" := 1]
    ensures Sum(map["N" := 1, "m" := 1], Scaled(map["N" := 1, "m" := 1], -1)) == map[]
  {
  }

  /** A newton metre over a joule cancels in one substitution of the joule. */
  lemma NewtonMetrePerJouleCancels(t: Table)
    requires Registered(t, NewtonMetre.unit) && "J" in t && t["J"].definition == Some(NewtonMetre)
    ensures Cancels(t, RatioUnit(t, NewtonMetre.unit, Sym("J")), "J")
  {
    NewtonMetrePerJoule();
    assert RatioUnit(t, NewtonMetre.unit, Sym("J")) == map["N" := 1, "m" := 1, "J" := -1];
  }

  /** What `Relation` needs to find `N * m` and `J` equal. */
  lemma NewtonMetreJouleFacts(t: Table)
    requires Stratified(t) && PositiveDefs(t) && Registered(t, NewtonMetre.unit)
    requires "J" in t && t["J"].definition == Some(NewtonMetre)
    ensures Sound(t) && Canonical(NewtonMetre.unit) && Canonical(Sym("J")) && NewtonMetre.unit != Sym("J")
    ensures Registered(t, Sym("J")) && Cancels(t, RatioUnit(t, NewtonMetre.unit, Sym("J")), "J")
    ensures Expand(t, NewtonMetre) == Expand(t, U("J"))
  {
    NewtonMetrePerJouleCancels(t);
    ExpandOneUnit(t, "J");
    assert "N" in NewtonMetre.unit && "N" !in Sym("J");
  }

  /** `N * m == J` in any registry that defines the joule as a newton
      metre (`Mech` is one). */
  method NewtonMetreIsJoule(t: Table) returns (r: Result<bool>)
    requires Stratified(t) && PositiveDefs(t) && Registered(t, NewtonMetre.unit)
    requires "J" in t && t["J"].definition == Some(NewtonMetre)
    ensures r == Ok(true)
  {
    NewtonMetreJouleFacts(t);
    r := EqualWhenCancels(t, NewtonMetre, U("J"));
  }

  /** `a == b` holds for two different units with the same expansion whose
      ratio one substitution cancels. */
  method EqualWhenCancels(t: Table, a: Quantity, b: Quantity) returns (r: Result<bool>)
    requires Sound(t) && Stratified(t) && Registered(t, a.unit) && Registered(t, b.unit)
    requires Canonical(a.unit) && Canonical(b.unit) && a.unit != b.unit
    requires exists v :: Cancels(t, RatioUnit(t, a.unit, b.unit), v)
    requires Expand(t, a) == Expand(t, b)
    ensures r == Ok(true)
  {
    r := Relation(t, Eq, a, b);
  }

  /** `N.s2/kg`, which one substitution of the newton turns into metres. */
  const NewtonSecondsSquaredPerKilogram := Quantity(1.0, map["N" := 1, "s" := 2, "kg" := -1])

  const SecondsSquaredPerKilogram := Quantity(1.0, map["s" := 2, "kg" := -1])

  lemma MetreSum()
    ensures map["N" := 1, "s" := 2, "kg" := -1] - {"N"} == map["s" := 2, "kg" := -1]
    ensures Scaled(map["kg" := 1, "m" := 1, "s" := -2], 1) == map["kg" := 1, "m" := 1, "s" := -2]
    ensures Sum(map["s" := 2, "kg" := -1], map["kg" := 1, "m" := 1, "s" := -2]) == map["m" := 1]
  {
  }

  /** Taking the newton out of `N.s2/kg` and multiplying by its definition
      leaves one metre. */
  lemma NewtonReplaced()
    ensures NewtonSecondsSquaredPerKilogram.unit - {"N"} == SecondsSquaredPerKilogram.unit
    ensures StepUnit(NewtonSecondsSquaredPerKilogram, "N", NewtonDef) == Sym("m")
    ensures Times(SecondsSquaredPerKilogram, Power(NewtonDef, 1)) == U("m")
  {
    MetreSum();
    assert Power(NewtonDef, 1) == NewtonDef;
  }

  lemma NewtonStep(t: Table)
    requires Stratified(t) && Sound(t) && Registered(t, NewtonDef.unit)
    requires "N" in t && t["N"].definition == Some(NewtonDef) && t["m"].definition.None?
    ensures Registered(t, NewtonSecondsSquaredPerKilogram.unit)
    ensures StepUnit(NewtonSecondsSquaredPerKilogram, "N", NewtonDef) == Sym("m")
    ensures Expand(t, NewtonSecondsSquaredPerKilogram) == U("m")
  {
    NewtonReplaced();
    ExpandReplaced(t, NewtonSecondsSquaredPerKilogram, "N");
    ExpandOneUnit(t, "m");
  }

  lemma EmptyExpands(t: Table, v: real)
    requires Stratified(t) && Sound(t)
    ensures Expand(t, Quantity(v, map[])).unit == map[]
  {
  }

  /** A normal form of `N.s2/kg` has one symbol and expands to one metre:
      it is no longer than the newton's substitution and not empty, since
      it expands like the input. */
  lemma MetreNormal(t: Table, n: Quantity)
    requires Stratified(t) && Sound(t) && Registered(t, NewtonDef.unit)
    requires "N" in t && t["N"].definition == Some(NewtonDef) && t["m"].definition.None?
    requires Registered(t, NewtonSecondsSquaredPerKilogram.unit)
    requires NormalOf(t, NewtonSecondsSquaredPerKilogram, n, false)
    ensures |n.unit| == 1 && Registered(t, n.unit) && Expand(t, n) == U("m")
  {
    NewtonStep(t);
    var q := NewtonSecondsSquaredPerKilogram;
    assert Canonical(q.unit);
    assert "N" in q.unit;
    assert |Sym("m")| == 1;
    assert |n.unit| <= 1;
    assert "m" in Expand(t, n).unit;
    EmptyExpands(t, n.value);
    assert n.unit != map[];
  }

  /** Normalising `N.s2/kg` leaves one symbol, which expands to one metre. */
  method NormalizedToMetre(t: Table) returns (n: Quantity)
    requires Stratified(t) && Sound(t) && Registered(t, NewtonDef.unit)
    requires "N" in t && t["N"].definition == Some(NewtonDef) && t["m"].definition.None?
    ensures |n.unit| == 1 && Registered(t, n.unit) && Expand(t, n) == U("m")
  {
    NewtonStep(t);
    var u := new Unum(NewtonSecondsSquaredPerKilogram.unit, 1.0);
    assert u.Current() == NewtonSecondsSquaredPerKilogram;
    var err := u.Normalize(t, false);
    n := u.Current();
    MetreNormal(t, n);
  }

  lemma NewtonListing()
    ensures IsListing(["m", "kg", "s"], NewtonUnit)
  {
  }

  /** A newton with the default options: `1 [kg.m/s2]` for the rendering
      `render`, whichever order the dictionary lists its symbols in.  The
      three symbols are base units, so display normalisation keeps them. */
  method NewtonText(t: Table, render: real -> string) returns (r: Result<string>)
    requires Stratified(t) && Sound(t) && Registered(t, NewtonUnit) && NoDerived(t, NewtonUnit)
    ensures r == Ok(render(1.0) + " " + "[kg.m/s2]")
  {
    var u := new Unum(NewtonUnit, 1.0);
    assert Canonical(NewtonUnit);
    r := u.Str(t, Defaults, render);
    assert u.Current() == Quantity(1.0, NewtonUnit);
    NewtonListing();
    ShowsSorted(Defaults, render, 1.0, NewtonUnit, r.value, ["m", "kg", "s"]);
    ExampleNewton();
  }

  // -- legacy conversion --------------------------------------------------------

  /** Metres and kilometres. */
  const Length: Table := map["m" := Base, "km" := Entry(Some(Quantity(1000.0, Sym("m"))), 1, "kilometer")]

  lemma LengthValid()
    ensures Stratified(Length) && PositiveDefs(Length)
  {
    assert Length.Keys == {"m", "km"};
  }

  lemma KilometresTimes()
    ensures Times(Quantity(2.0, map[]), Quantity(1000.0, Sym("m"))) == Quantity(2000.0, Sym("m"))
  {
    SumEmpty(Sym("m"));
  }

  /** `(2 km).converted()` is 2000 m; a metre has nothing to convert to. */
  method KilometresConverted() returns (r: Result<Unum>, base: Result<Unum>)
    ensures r.Ok? && r.value.Current() == Quantity(2000.0, Sym("m")) && r.value.normal
    ensures base == Err(NoConversion)
  {
    LengthValid();
    var km := new Unum(Sym("km"), 2.0);
    r := km.Converted(Length);
    assert "km" in km.unit && km.unit["km"] == 1 && |km.unit| == 1 && Canonical(km.unit);
    PowerOne(Quantity(1000.0, Sym("m")));
    KilometresTimes();
    var m := new Unum(Sym("m"), 2.0);
    base := m.Converted(Length);
    assert "m" in m.unit;
  }

  // -- the registry ---------------------------------------------------------------

  /** Registering the gram twice raises NameConflictError and keeps the
      table; a derived unit whose single symbol has exponent 2 is not basic; the copy that
      `getUnitTable` returns does not follow a later `reset`. */
  method Registration() returns (dup: Result<Quantity>, twice: Result<Quantity>, copy: Table, after: Table)
    ensures dup == Err(NameConflict("g"))
    ensures twice == Err(NonBasicUnit)
    ensures copy == map["kg" := Entry(None, 0, "kilogram"),
                        "g" := Entry(Some(Quantity(0.001, Sym("kg"))), 1, "gram")]
    ensures after == map[]
  {
    var reg := new UnitTable();
    var kg := reg.UnitDef("kg", BaseUnit, "kilogram");
    var g := reg.UnitDef("g", DerivedFrom(Quantity(0.001, Sym("kg"))), "gram");
    MaxLevelOne(reg.entries, "kg");
    assert Sym("kg").Keys == {"kg"};
    dup := reg.UnitDef("g", BaseUnit, "gram");
    twice := reg.Register(map["mg" := 2], "mg", 1.0, DerivedFrom(Quantity(0.001, Sym("g"))), "milligram");
    copy := reg.GetUnitTable();
    reg.Reset(None);
    after := reg.GetUnitTable();
  }
}
