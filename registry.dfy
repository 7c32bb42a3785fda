/** The unit registry: the class-level `_unitTable` of `Unum`, mapping a unit
    symbol to its definition (none for a base unit), its level and its name.
    Everything outside `UnitTable` reads the table as a parameter. */
module Registry {
  import opened Errors
  import opened UnitVectors
  import opened Quantities

  /** One table row: `(conversion unum or None, level, name)`. */
  datatype Entry = Entry(definition: Option<Quantity>, level: nat, name: string)

  type Table = map<string, Entry>

  /** The `definition` argument of registration: `0` for a base unit, or
      the quantity (a raw number coerced to a unitless one) the new unit equals. */
  datatype Definition = BaseUnit | DerivedFrom(equal: Quantity)

  /** Every symbol of `u` has a table row (Python raises KeyError otherwise). */
  predicate Registered(t: Table, u: Unit)
  {
    u.Keys <= t.Keys
  }

  /** Every symbol the definition of `s` uses is registered with a smaller level. */
  predicate DefinedBelow(t: Table, s: string)
    requires s in t && t[s].definition.Some?
  {
    forall r :: r in t[s].definition.value.unit ==> r in t && t[r].level < t[s].level
  }

  /** The registry invariant: derived units sit at level 1 or more, above
      every unit their definition mentions. */
  predicate Stratified(t: Table)
  {
    forall s :: s in t && t[s].definition.Some? ==> t[s].level >= 1 && DefinedBelow(t, s)
  }

  /** Definitions are canonical and have non-zero values, so that expanding
      them never divides by zero. */
  predicate Sound(t: Table)
  {
    forall s :: s in t && t[s].definition.Some? ==>
      t[s].definition.value.value != 0.0 && Canonical(t[s].definition.value.unit)
  }

  /** Definitions have positive values, so converting preserves order. */
  predicate PositiveDefs(t: Table)
  {
    Sound(t) && forall s :: s in t && t[s].definition.Some? ==> t[s].definition.value.value > 0.0
  }

  /** No registered symbol of `u` has a definition. */
  predicate NoDerived(t: Table, u: Unit)
  {
    forall s :: s in u && s in t ==> t[s].definition.None?
  }

  function Max(a: nat, b: nat): nat
  {
    if a < b then b else a
  }

  /** `maxLevel`: the largest level among `keys`, and 0 for none. */
  ghost function MaxLevel(t: Table, keys: set<string>): nat
    requires keys <= t.Keys
  {
    if keys == {} then 0
    else
      var k :| k in keys;
      Max(t[k].level, MaxLevel(t, keys - {k}))
  }

  lemma {:induction false} MaxLevelUpper(t: Table, keys: set<string>, s: string)
    requires keys <= t.Keys && s in keys
    ensures t[s].level <= MaxLevel(t, keys)
    decreases keys
  {
    var k :| k in keys && MaxLevel(t, keys) == Max(t[k].level, MaxLevel(t, keys - {k}));
    var m, rest := MaxLevel(t, keys), MaxLevel(t, keys - {k});
    if s != k {
      MaxLevelUpper(t, keys - {k}, s);
    }
    assert m == Max(t[k].level, rest);
  }

  lemma {:induction false} MaxLevelLeast(t: Table, keys: set<string>, m: nat)
    requires keys <= t.Keys
    requires forall s :: s in keys ==> t[s].level <= m
    ensures MaxLevel(t, keys) <= m
    decreases keys
  {
    if keys != {} {
      var k :| k in keys && MaxLevel(t, keys) == Max(t[k].level, MaxLevel(t, keys - {k}));
      var all, rest := MaxLevel(t, keys), MaxLevel(t, keys - {k});
      MaxLevelLeast(t, keys - {k}, m);
      assert all == Max(t[k].level, rest);
    }
  }

  /** The maximum is 0 or the level of one of the symbols. */
  lemma {:induction false} MaxLevelAttained(t: Table, keys: set<string>)
    requires keys <= t.Keys
    ensures MaxLevel(t, keys) == 0 || exists s :: s in keys && t[s].level == MaxLevel(t, keys)
    decreases keys
  {
    if keys != {} {
      var k :| k in keys && MaxLevel(t, keys) == Max(t[k].level, MaxLevel(t, keys - {k}));
      var all, rest := MaxLevel(t, keys), MaxLevel(t, keys - {k});
      MaxLevelAttained(t, keys - {k});
      assert all == Max(t[k].level, rest);
      if all != 0 && all != t[k].level {
        var s :| s in keys - {k} && t[s].level == rest;
        assert s in keys;
      }
    }
  }

  lemma MaxLevelSubset(t: Table, a: set<string>, b: set<string>)
    requires a <= b <= t.Keys
    ensures MaxLevel(t, a) <= MaxLevel(t, b)
  {
    forall s | s in a ensures t[s].level <= MaxLevel(t, b) {
      MaxLevelUpper(t, b, s);
    }
    MaxLevelLeast(t, a, MaxLevel(t, b));
  }

  /** In a stratified table, a derived unit's definition sits below it. */
  lemma DefinitionBelow(t: Table, s: string)
    requires Stratified(t) && s in t && t[s].definition.Some?
    ensures Registered(t, t[s].definition.value.unit)
    ensures MaxLevel(t, t[s].definition.value.unit.Keys) < t[s].level
  {
    assert DefinedBelow(t, s);
    var keys := t[s].definition.value.unit.Keys;
    MaxLevelLeast(t, keys, t[s].level - 1);
  }

  /** The `max([0] + [levels])` of `maxLevel`, as a loop over the symbols. */
  method MaxLevelOf(t: Table, u: Unit) returns (m: nat)
    requires Registered(t, u)
    ensures m == MaxLevel(t, u.Keys)
  {
    m := 0;
    var pending := u.Keys;
    while pending != {}
      invariant pending <= u.Keys
      invariant forall s :: s in u.Keys - pending ==> t[s].level <= m
      invariant m == 0 || exists s :: s in u.Keys - pending && t[s].level == m
      decreases pending
    {
      var s :| s in pending;
      if t[s].level > m {
        m := t[s].level;
      }
      pending := pending - {s};
    }
    MaxLevelLeast(t, u.Keys, m);
    if m != 0 {
      var s :| s in u.Keys && t[s].level == m;
      MaxLevelUpper(t, u.Keys, s);
    }
  }

  /** The registry itself, with the class-level operations that write it. */
  class UnitTable {
    var entries: Table

    ghost predicate Valid()
      reads this
    {
      Stratified(entries)
    }

    constructor ()
      ensures entries == map[] && Valid()
    {
      entries := map[];
    }

    /** Registration, the `definition is not None` branch of the `Unum`
        constructor.  `key` is the first key of `unit`.  A duplicate symbol
        fails first and changes nothing; a base unit is stored with level 0;
        a derived one must be one unit of a single symbol with exponent 1,
        and is stored as `definition / value` one level above its
        definition's highest symbol.  The result is the new unit. */
    method Register(unit: Unit, key: string, value: real, definition: Definition, name: string)
      returns (r: Result<Quantity>)
      requires key in unit
      requires definition.DerivedFrom? ==> Registered(entries, definition.equal.unit)
      modifies this
      ensures key in old(entries) ==> r == Err(NameConflict(key)) && entries == old(entries)
      ensures key !in old(entries) && definition.BaseUnit? ==>
        r == Ok(Quantity(value, unit)) && entries == old(entries)[key := Entry(None, 0, name)]
      ensures key !in old(entries) && definition.DerivedFrom? &&
              (value == 0.0 || |unit| != 1 || unit[key] != 1) ==>
        r == Err(NonBasicUnit) && entries == old(entries)
      ensures key !in old(entries) && definition.DerivedFrom? &&
              value != 0.0 && |unit| == 1 && unit[key] == 1 ==>
        r == Ok(Quantity(value, unit)) &&
        entries == old(entries)[key := Entry(Some(Quantity(definition.equal.value / value, definition.equal.unit)),
                                            MaxLevel(old(entries), definition.equal.unit.Keys) + 1, name)]
      ensures old(Valid()) ==> Valid()
      ensures old(Sound(entries)) && r.Ok? &&
              (definition.DerivedFrom? ==> definition.equal.value != 0.0 && Canonical(definition.equal.unit)) ==>
        Sound(entries)
      ensures old(PositiveDefs(entries)) && r.Ok? &&
              (definition.DerivedFrom? ==> definition.equal.value > 0.0 && value > 0.0 && Canonical(definition.equal.unit)) ==>
        PositiveDefs(entries)
    {
      if key in entries {
        return Err(NameConflict(key));
      }
      if definition.BaseUnit? {
        entries := entries[key := Entry(None, 0, name)];
      } else {
        if value == 0.0 || |unit| != 1 || unit[key] != 1 {
          return Err(NonBasicUnit);
        }
        var conv := Div(definition.equal, Coerce(value));
        var level := MaxLevelOf(entries, conv.value.unit);
        forall s | s in conv.value.unit ensures entries[s].level <= level {
          MaxLevelUpper(entries, conv.value.unit.Keys, s);
        }
        entries := entries[key := Entry(Some(conv.value), level + 1, name)];
        assert DefinedBelow(entries, key);
      }
      r := Ok(Quantity(value, unit));
    }

    /** `unit(symbol, definition, name)`: one unit of a fresh symbol.  It can
        only fail by a name conflict, never as a non-basic unit. */
    method UnitDef(symbol: string, definition: Definition, name: string) returns (r: Result<Quantity>)
      requires definition.DerivedFrom? ==> Registered(entries, definition.equal.unit)
      modifies this
      ensures symbol in old(entries) ==> r == Err(NameConflict(symbol)) && entries == old(entries)
      ensures symbol !in old(entries) ==> r == Ok(Quantity(1.0, map[symbol := 1]))
      ensures symbol !in old(entries) && definition.BaseUnit? ==>
        entries == old(entries)[symbol := Entry(None, 0, name)]
      ensures symbol !in old(entries) && definition.DerivedFrom? ==>
        entries == old(entries)[symbol := Entry(Some(definition.equal),
                                                MaxLevel(old(entries), definition.equal.unit.Keys) + 1, name)]
      ensures old(Valid()) ==> Valid()
    {
      if definition.DerivedFrom? {
        assert Quantity(definition.equal.value / 1.0, definition.equal.unit) == definition.equal;
      }
      r := Register(map[symbol := 1], symbol, 1.0, definition, name);
    }

    /** `reset`: empty the registry, or install the given table. */
    method Reset(replacement: Option<Table>)
      modifies this
      ensures replacement.None? ==> entries == map[] && Valid()
      ensures replacement.Some? ==> entries == replacement.value
    {
      entries := if replacement.None? then map[] else replacement.value;
    }

    /** `getUnitTable`: a copy of the registry, a value the caller cannot use
        to change it. */
    method GetUnitTable() returns (copy: Table)
      ensures copy == entries
    {
      copy := entries;
    }
  }
}
