# Unum in Dafny

This project models the core of Unum, a Python engine for quantities with units. A `Unum` pairs a number (its *value*) with a *unit vector*: a dictionary from unit symbols to non-zero integer exponents. A class-level registry records every unit. A *base* unit has no definition (level 0). A *derived* unit has a stored definition, a quantity in other units, and sits one level above the highest symbol of that definition.

On top of that the engine offers:

* arithmetic that adds, subtracts or scales exponents;
* a normaliser that rewrites a unit into an equivalent one with fewer symbols, by substituting definitions in a breadth-first search;
* unit matching, which converts one operand of `+`, `-` or a comparison into the other's unit;
* conversion (`asNumber`, `asUnit`, and the legacy `converted`);
* rendering of a unit as text.

Two revisions are modelled together. `unum/core.py` is the current one. `unum/__init__.py` is the legacy one, which has `fix`, `converted` and `__cmp__`, has no zero-value shortcut when matching, and makes `//` an alias of true division. Operations whose behaviour differs take a `Revision` parameter (`Current` or `Legacy`).

Values are `real` (exact rationals, as the `fractions.Fraction` tests use). "Equivalent" means *same full expansion*. The expansion is the ghost function `Expansion.Expand`: it replaces every derived symbol by its definition, recursively, down to base units. `Dimension` is the base-unit vector a unit expands to.

Modules, in dependency order:

| module | file | contents |
|---|---|---|
| `Errors` | errors.dfy | the exception kinds as an `Error` datatype; `Option`, `Result` |
| `Powers` | powers.dfy | integer powers of reals and the real-number facts the proofs use |
| `UnitVectors` | unitvec.dfy | unit vectors (`map<string, int>`, no zero exponent) and the dictionary loops of `*`, `/`, `**` |
| `Quantities` | quantity.dfy | value-plus-unit quantities, the algebra of `Times`/`Quotient`/`Power`, and the arithmetic operators |
| `Registry` | registry.dfy | the unit table, `maxLevel`, and the class `UnitTable` that registration, `reset` and `getUnitTable` write and read |
| `Expansion` | expansion.dfy | full expansion to base units, and its homomorphism laws |
| `Measures` | measures.dfy | the weight that makes the normaliser terminate |
| `Formatting` | format.dfy | `strUnit`: ordering, pieces, separators, the `1` numerator, the hidden empty unit |
| `Unums` | unum.dfy | class `Unum` (`value`, `unit`, `normal`): `replaced`, `normalize`, `copy`, `fix`, `__str__`, `converted` |
| `Matching` | matching.dfy | `checkNoUnit`, the conversion step, `matchUnits` |
| `Operators` | operators.dfy | `+`, `-`, comparisons, legacy `__cmp__`, `asNumber`, `asUnit`, `**` |
| `Scenarios` | examples.dfy | the documented examples and tests, stated over small registries |

The class-level state of `Unum` becomes explicit. `UnitTable` owns the registry. Every other operation reads the registry as a `Table` parameter. The format switches (`UNIT_SEP`, `UNIT_DIV_SEP`, `UNIT_FORMAT`, `UNIT_INDENT`, `UNIT_HIDE_EMPTY`, `UNIT_SORTING`, `AUTO_NORM`) form the `Formatting.Options` parameter. Python's dictionary iteration order becomes a nondeterministic choice (`:|`) in the loops that walk a dictionary. For `strUnit` it is an arbitrary listing of the keys: the result is proved for every listing.

Where the documentation or tests and the code differ, the code decides:

* `==` and `!=` on units that cannot be matched raise IncompatibleUnitsError (unum/core.py:379-385); they do not return `False` as tests/test_core.py, written for a later API, expects.
* The current revision's `//` floors the quotient (Python `//`). In the legacy revision, `//` is true division (unum/__init__.py:329).
* The legacy revision's `Unum.UnumError`, `Unum.DimensionError` and the undefined `Unum.ERR_BIC` would fail with `AttributeError`. The model gives the intended outcome: the non-basic-unit error, or the dimension error (IncompatibleUnits / ShouldBeUnitless).
* The docstring of `replaced` says an absent symbol gives a copy. The code raises `KeyError` (unum/core.py:197), so `Unums.Replaced` requires the symbol to be present.

## Model

| member | source | states |
|---|---|---|
| `UnitVectors.MulUnits` | unum/core.py:305-319 | the product's exponent at every symbol is the sum of the operands' exponents, and only their symbols occur; an empty side gives the other side's dictionary as it is; canonical inputs give the canonical sum `Sum`, so no zero exponent is left |
| `UnitVectors.DivUnits` | unum/core.py:321-335 | the quotient's exponent at every symbol is the numerator's minus the denominator's, and only their symbols occur; an empty divisor gives the numerator's dictionary as it is; canonical inputs give the canonical difference `Diff` |
| `UnitVectors.PowUnits` | unum/core.py:351-361 | the symbols stay the same and every exponent is multiplied by the power; a canonical unit and a non-zero power give the canonical `Scaled` |
| `UnitVectors.SumExp` | unum/core.py:312-318 | the exponent sum of two vectors is canonical and has, at every symbol, the sum of their exponents |
| `UnitVectors.DiffExp` | unum/core.py:328-334 | the exponent difference of two vectors is canonical and has, at every symbol, the difference of their exponents |
| `UnitVectors.ScaledExp` | unum/core.py:356-357 | scaling by `n` multiplies every symbol's exponent by `n` and keeps canonical units canonical |
| `UnitVectors.CanonicalEq` | unum/core.py:315-318 | two canonical vectors with the same exponent at every symbol are the same dictionary, so dropping zeros makes the representation unique |
| `UnitVectors.SumComm` | unum/core.py:305-319 | multiplying units is commutative |
| `UnitVectors.SumAssoc` | unum/core.py:305-319 | multiplying units is associative |
| `UnitVectors.SumEmpty` | unum/core.py:307-310 | the empty unit is neutral for multiplication |
| `UnitVectors.DiffIsSum` | unum/core.py:321-335 | dividing units is multiplying by the unit scaled by -1 |
| `UnitVectors.ScaledAdd` | unum/core.py:351-361 | scaling by `m + n` is the product of scaling by `m` and by `n` |
| `UnitVectors.ScaledOne` | unum/core.py:351-361 | scaling a canonical unit by 1 leaves it unchanged |
| `UnitVectors.SumRemove` | unum/core.py:312-318 | adding one symbol's exponent back changes the sum only at that symbol, where it adds that exponent |
| `Quantities.Coerce` | unum/core.py:504-514 | a raw number becomes a unitless quantity with that value |
| `Quantities.Mul` | unum/core.py:305-319 | values multiply and exponents add (zeros dropped); an empty unit on either side gives the other's unit; on canonical units the result is the product `Times` |
| `Quantities.Div` | unum/core.py:321-335 | a zero divisor raises ZeroDivisionError, and nothing else does; otherwise values divide and exponents subtract; on canonical units the result is the quotient `Quotient` |
| `Quantities.FloorDiv` | unum/core.py:337-349 | a zero divisor raises ZeroDivisionError; otherwise the value is the floor of the quotient, between quotient - 1 and the quotient, and the unit is the quotient's |
| `Quantities.PowInt` | unum/core.py:351-361 | a zero power gives value 1 and the empty unit; 0 to a negative power raises ZeroDivisionError, and only that does; otherwise the value is the power and every exponent is multiplied by it |
| `Quantities.Neg` | unum/core.py:302-303 | the unit is kept and the value negated |
| `Quantities.Pos` | unum/core.py:298-300 | the result is the operand itself (a copy) |
| `Quantities.Abs` | unum/core.py:387-388 | the unit is kept and the value is the non-negative one of `v`, `-v` |
| `Quantities.TimesComm` | unum/core.py:305-319 | multiplying quantities is commutative |
| `Quantities.TimesAssoc` | unum/core.py:305-319 | multiplying quantities is associative |
| `Quantities.TimesOne` | unum/core.py:307-310 | the unitless 1 is neutral for multiplication |
| `Quantities.TimesCancel` | unum/core.py:305-319 | a common factor with a non-zero value cancels from both sides of an equation |
| `Quantities.PowerAdd` | unum/core.py:351-361 | `a ** (m + n) == a ** m * a ** n` for a non-zero value |
| `Quantities.PowerSucc` | unum/core.py:351-361 | `a ** (n + 1) == a ** n * a` for a non-zero value |
| `Quantities.PowerZero` | unum/core.py:359-360 | anything to the power 0 is the unitless 1 |
| `Quantities.PowerOne` | unum/core.py:351-361 | a canonical quantity to the power 1 is itself |
| `Quantities.QuotientIsTimesInverse` | unum/core.py:321-335 | dividing by `b` is multiplying by `b ** -1` |
| `Quantities.PowerValue` | unum/core.py:351-361 | a non-zero value stays non-zero under any integer power, and a positive one stays positive |
| `Registry.MaxLevelOf` | unum/core.py:245-249 | the loop computes `maxLevel`: the maximum of 0 and the levels of the unit's symbols |
| `Registry.MaxLevelUpper` | unum/core.py:245-249 | `maxLevel` is at least the level of every symbol of the unit |
| `Registry.MaxLevelLeast` | unum/core.py:245-249 | a bound on every symbol's level bounds `maxLevel`, so it is the least such bound |
| `Registry.MaxLevelAttained` | unum/core.py:245-249 | a non-zero `maxLevel` is the level of some symbol of the unit |
| `Registry.MaxLevelSubset` | unum/core.py:245-249 | fewer symbols never have a higher `maxLevel` |
| `Registry.DefinitionBelow` | unum/core.py:132-133 | in a valid registry, a derived unit's level is above the `maxLevel` of its definition |
| `Registry.UnitTable.constructor` | unum/core.py:99 | the registry starts empty, which is valid |
| `Registry.UnitTable.Register` | unum/core.py:119-135 | a present symbol raises NameConflictError before any other check and changes nothing; a base unit is stored with no definition and level 0; a derived unit whose value is 0, or that is not one symbol with exponent 1, raises NonBasicUnitError and changes nothing; otherwise `definition / value` is stored one level above the definition's `maxLevel` |
| `Registry.UnitTable.UnitDef` | unum/core.py:42-53 | `unit(symbol, definition, name)` returns one unit of the symbol and registers it like `Register`; it fails only by a name conflict |
| `Registry.UnitTable.Reset` | unum/core.py:139-149 | no argument empties the registry; a table argument becomes the registry |
| `Registry.UnitTable.GetUnitTable` | unum/core.py:151-157 | a copy of the registry as a value, so later writes to the registry do not reach it |
| `Expansion.ExpandSym` | unum/core.py:132-135 | one unit of a registered symbol expands to a non-zero canonical quantity |
| `Expansion.Expand` | unum/core.py:201-235 | the full expansion is canonical and is zero exactly when the value is |
| `Expansion.FactorPick` | unum/core.py:219-227 | the expansion does not depend on the order in which symbols are substituted |
| `Expansion.FactorSum` | unum/core.py:305-319 | the product of two units expands to the product of their expansion factors |
| `Expansion.ExpandTimes` | unum/core.py:305-319 | expanding a product multiplies the expansions |
| `Expansion.ExpandPower` | unum/core.py:351-361 | expanding an integer power raises the expansion to that power |
| `Expansion.ExpandReplaced` | unum/core.py:190-199 | substituting a symbol by its definition raised to its exponent keeps the expansion |
| `Expansion.ExpandUnitSymbol` | unum/core.py:42-53 | one unit of a symbol expands like the symbol |
| `Expansion.ExpandScale` | unum/core.py:390-402 | the unit alone fixes the expansion's unit, and the expansion's value scales with the value |
| `Expansion.FactorPositive` | unum/core.py:363-378 | with positive definitions every unit expands to a positive amount, so converting keeps order |
| `Expansion.ExpandSymPositive` | unum/core.py:132-135 | with positive definitions every symbol expands to a positive amount |
| `Measures.ReplacedWeight` | unum/core.py:219-231 | substituting a derived symbol by its definition strictly lowers the weight (the sum of `(N + 1) ^ level` over the symbols, `N` the registry's size) |
| `Measures.DefinitionBound` | unum/core.py:132-135 | a definition's symbols weigh less than the symbol they define |
| `Measures.WeightPick` | unum/core.py:219-227 | the weight of a set of symbols is the same whichever member is counted first |
| `Measures.WeightSubset` | unum/core.py:219-227 | a subset weighs no more |
| `Measures.WeightUnion` | unum/core.py:219-227 | a union weighs no more than the sum of its parts |
| `Measures.WeightBelow` | unum/core.py:132-135 | symbols all below level `L` weigh at most their count times `(N + 1) ^ (L - 1)` |
| `Unums.Replaced` | unum/core.py:190-199 | `replaced(u, d)`: ZeroDivisionError exactly when `d` is 0 and `u`'s exponent is negative; otherwise `u` is gone, every other exponent gains `d`'s exponent times `u`'s, the value is multiplied by `d`'s value to that power, and the result is the product of the rest and `d ** exp` |
| `Unums.SignatureSeen` | unum/core.py:223-227 | the deduplication test finds a state of the round being built with the same substitution signature exactly when there is one |
| `Unums.RankMember` | unum/core.py:215-216 | every search state weighs less than the frontier's rank |
| `Unums.RankBelow` | unum/core.py:215-216 | a frontier whose states all weigh less than a bound has a rank below it, so the round loop terminates |
| `Unums.Unum.constructor` | unum/core.py:115-120 | a unum made from a unit and a value holds them and is not flagged normal |
| `Unums.Unum.Normalize` | unum/core.py:201-235 | `normalize` changes the unum to one that expands like the input, never has more symbols and differs only with fewer, keeps a single symbol when displaying, leaves a unit with no derived symbol as it is, and is no longer than any single substitution; it fails only by ZeroDivisionError from a zero-valued definition |
| `Unums.Unum.Explore` | unum/core.py:216-234 | one state of a round yields one new state per derived symbol whose signature is new in the round; the best candidate only improves and stays faithful |
| `Unums.Unum.Visit` | unum/core.py:217-234 | the inner-loop body for one symbol keeps the frontier's invariants, and in the first round records that this symbol's substitution has been considered |
| `Unums.Unum.Substitute` | unum/core.py:219-234 | a derived symbol not yet seen in the round is replaced, the new state is appended, and the unum takes it if it is shorter |
| `Unums.Unum.Adopt` | unum/core.py:232-234 | the unum takes the candidate exactly when it has fewer symbols than the best so far, except one symbol for none when displaying; otherwise nothing changes |
| `Unums.BestAdopt` | unum/core.py:232-234 | taking a faithful shorter candidate keeps the best-so-far invariant |
| `Unums.FirstRoundStep` | unum/core.py:216-227 | in the first round every substitution of the input is new and is considered, so the result is no longer than any of them |
| `Unums.ReplacedFaithful` | unum/core.py:190-199 | a substitution step keeps a candidate's expansion equal to the input's |
| `Unums.Unum.Copy` | unum/core.py:159-169 | `copy()` has the same value and unit and is not flagged normal; `copy(True)` is normalised (not for display), with the guarantees of `Normalize` |
| `Unums.Unum.Fix` | unum/__init__.py:218-224 | `fix` flags the unum normal and keeps its value and unit |
| `Unums.Unum.Str` | unum/core.py:490-500 | with automatic normalisation on, an unflagged unum is normalised for display and flagged; otherwise the unum is unchanged; the text is the value's rendering, the indent and the `strUnit` text of the resulting unit |
| `Unums.Unum.Converted` | unum/__init__.py:525-536 | NoConversion unless the unit is one symbol and that symbol is derived; otherwise that symbol is replaced by its definition raised to its exponent, the result expands like the input and is flagged normal |
| `Matching.CheckNoUnit` | unum/core.py:237-243 | ShouldBeUnitlessError exactly when the unit is not empty |
| `Matching.CancelsEmpty` | unum/core.py:276-281 | a ratio that one substitution cancels normalises to the empty unit |
| `Matching.CancelledValue` | unum/core.py:401-402 | a quantity whose unit one substitution cancels normalises to the plain number it expands to |
| `Matching.ConvertBack` | unum/core.py:276-281 | a unitless ratio `o / 1 su` is `o`'s value in unit `su`: that value with unit `su` expands like `o` |
| `Matching.ConvertTo` | unum/core.py:276-281 | the conversion step gives the target unit with a value that keeps the expansion; different dimensions raise IncompatibleUnitsError; a ratio one substitution cancels converts |
| `Matching.MatchUnits` | unum/core.py:251-284 | equal units are returned unchanged; in the current revision a zero side takes the other's unit; otherwise the preferred side (fewer symbols, then higher `maxLevel`, then `self`) is kept and the other converted; both results share one unit and keep their expansions; different dimensions raise IncompatibleUnitsError; a ratio one substitution cancels always matches |
| `Operators.Add` | unum/core.py:290-292 | `+` adds the matched values: the sum expands to the sum of the expansions, its unit is one operand's unit, and the error cases are those of matching |
| `Operators.Sub` | unum/core.py:294-296 | `-` subtracts the matched values: the difference expands to the difference of the expansions, with the error cases of matching |
| `Operators.SumExpanded` | unum/core.py:290-296 | adding or subtracting matched values adds or subtracts the expanded values |
| `Operators.HoldsScaled` | unum/core.py:363-385 | a comparison is unchanged by scaling both sides by a positive factor, and equality by any non-zero factor |
| `Operators.Relation` | unum/core.py:363-385 | `<`, `<=`, `>`, `>=`, `==`, `!=` compare the matched values, which agrees with comparing the expanded values; different dimensions raise IncompatibleUnitsError |
| `Operators.LegacyCompare` | unum/__init__.py:347-354 | `__cmp__` gives -1, 0 or 1 as the expanded values compare, with the error cases of legacy matching |
| `Operators.AsNumber` | unum/core.py:390-413 | no target gives the value of a normalised copy, and for a unit one substitution cancels the number it expands to (`(m/cm).asNumber()` is 100); a unum target must be one unit and gives the matched ratio; a number target needs a unitless normalised self and divides by the number |
| `Operators.ValueIn` | unum/core.py:404-409 | a target whose value is not 1 raises NonBasicUnitError; otherwise the value in the target's unit, which with that unit expands like the input |
| `Operators.ValueOver` | unum/core.py:410-413 | a normalised copy with a unit left raises ShouldBeUnitlessError; otherwise its value divided by the number, and a zero number raises ZeroDivisionError; a quantity whose unit one substitution cancels (`(m/cm).asNumber(1)`) gives the number it expands to divided by the number |
| `Operators.NormalCopy` | unum/core.py:159-169 | a normalised copy with the guarantees of `Normalize`, the input itself when nothing is derived |
| `Operators.UnitlessDimension` | unum/core.py:410-413 | a unit that normalises to nothing is dimensionless |
| `Operators.InUnit` | unum/core.py:183-186 | the ratio of matched values, given the target's unit, expands like the input |
| `Operators.AsUnit` | unum/core.py:171-188 | a target whose value is not 1 raises NonBasicUnitError; otherwise the input in the target's unit, expanding alike and flagged normal; different dimensions raise IncompatibleUnitsError |
| `Operators.PowBy` | unum/core.py:351-361 | a unitless exponent: 0 gives value 1; a non-integer raises NonIntegerExponent; an integer gives the power, or ZeroDivisionError for 0 to a negative power |
| `Operators.Pow` | unum/core.py:351-361 | `**`: a zero exponent gives the unitless 1; a non-zero exponent is normalised and must be unitless, else ShouldBeUnitlessError; the result is the power by the exponent's expanded integer value; an exponent whose unit one substitution cancels (`m/cm`) is accepted, with the outcome fixed by the number it expands to (the power, NonIntegerExponent, or ZeroDivisionError for 0 to a negative power) |
| `Formatting.IntToString` | unum/core.py:461-465 | the decimal text of an integer starts with `-` exactly for a negative one |
| `Formatting.ParseIntToString` | unum/core.py:461-465 | reading back the decimal text of an exponent gives the exponent |
| `Formatting.Fmt` | unum/core.py:461-465 | the exponent text is empty exactly for exponent 1 |
| `Formatting.SortPerm` | unum/core.py:469-470 | sorting the symbols keeps the same multiset of symbols |
| `Formatting.SortSorted` | unum/core.py:469-470 | sorting distinct symbols gives a strictly increasing sequence |
| `Formatting.SortedUnique` | unum/core.py:469-470 | two sorted sequences with the same members are equal |
| `Formatting.SortListingsAgree` | unum/core.py:469-470 | with sorting on, the dictionary's iteration order does not affect the order of the pieces |
| `Formatting.LexTotal` | unum/core.py:469-470 | string order is total on different strings |
| `Formatting.LexTrans` | unum/core.py:469-470 | string order is transitive |
| `Formatting.LexIrreflexive` | unum/core.py:469-470 | string order is irreflexive |
| `Formatting.Listing` | unum/core.py:468 | the dictionary's items, in some order, each symbol once |
| `Formatting.StrUnit` | unum/core.py:458-488 | `strUnit` is the unit text of the symbols in display order: pieces joined by the unit separator, the denominator after the division separator, `1` for an empty numerator, wrapped by the unit format, or nothing for a hidden empty unit |
| `Formatting.Sides` | unum/core.py:471-479 | the loop builds the numerator text and the denominator text as the specification functions describe |
| `Formatting.Place` | unum/core.py:472-479 | one symbol goes into the numerator when its exponent is positive or there is no division separator, and into the denominator otherwise |
| `Formatting.Assemble` | unum/core.py:480-487 | the two sides become the final text |
| `Formatting.ShowsSorted` | unum/core.py:490-500 | with sorting on, the text of `__str__` is the value's rendering, the indent and the unit text of the sorted symbols |
| `Formatting.NoDivSepNoDenominator` | unum/core.py:472 | without a division separator nothing goes to the denominator |
| `Formatting.AllNegativeNoNumerator` | unum/core.py:476-479 | with a division separator, only negative exponents leave the numerator empty |
| `Formatting.OnlyDenominator` | unum/core.py:480-483 | with only negative exponents the text is `1`, the division separator and the denominator |
| `Formatting.EmptyUnitText` | unum/core.py:484-487 | the empty unit gives nothing when hiding is on, and otherwise the unit format around nothing |
| `Formatting.HiddenOnlyWhenEmpty` | unum/core.py:484-487 | the body is empty exactly when both sides have no pieces, and with hiding on only then is the text empty |
| `Formatting.UnitExponentOmitted` | unum/core.py:461-465 | an exponent of 1, or of -1 in the denominator, is not printed |
| `Formatting.ExponentShown` | unum/core.py:461-465 | any other exponent is printed after the symbol and reads back as the exponent |
| `Formatting.ExampleNewton` | unum/tools/test.py:40 | `kg.m/s2` in any listed order renders as `[kg.m/s2]` |
| `Formatting.ExampleNoDivSep` | unum/tools/test.py:229 | without a division separator `m/s` renders with a negative exponent, `m.s-1` |
| `Formatting.ExampleHertz` | unum/core.py:480-483 | a lone denominator renders as `[1/s]` |
| `Scenarios.MassValid` | unum/tools/extraunits.py:35 | the kilogram and the gram (0.001 kg) form a valid registry with positive definitions |
| `Scenarios.KilogramInGrams` | tests/test_unum.py:33-35 | `kg.asNumber(g)` is 1000 |
| `Scenarios.KilogramInTwoGrams` | tests/test_unum.py:37-39 | `kg.asNumber(2 * g)` raises NonBasicUnitError |
| `Scenarios.GramsPlusGrams` | tests/test_unum.py:11-14 | one gram plus two grams is three grams |
| `Scenarios.MassPlusTime` | tests/test_unum.py:16-18 | a mass plus a time raises IncompatibleUnitsError |
| `Scenarios.ZeroPlusMass` | unum/core.py:263-267 | `0 s + 5 kg` is `5 kg` in the current revision and raises IncompatibleUnitsError in the legacy one |
| `Scenarios.MassToTime` | unum/tools/test.py:94-95 | a unit raised to a mass raises ShouldBeUnitlessError |
| `Scenarios.FractionSquared` | tests/test_unum.py:69-74 | `(5/6 g) ** 2 == 25/36 g2`, exactly |
| `Scenarios.HalfPower` | unum/tools/test.py:96-99 | a unit raised to a non-integer exponent raises NonIntegerExponent; the test expects a fractional unit (`1.0 [m0.01]`), which this model does not represent |
| `Scenarios.MinuteAsSeconds` | tests/test_unum.py:56-59 | one minute as seconds is 60 s, flagged normal |
| `Scenarios.NewtonMetreIsJoule` | tests/test_unum.py:41-42 | `N * m == J` in any registry that defines the joule as a newton metre |
| `Scenarios.EqualWhenCancels` | unum/core.py:379-381 | two different units with the same expansion whose ratio one substitution cancels compare equal |
| `Scenarios.MechValid` | unum/units/si.py:17-19 | metre, kilogram, second, newton and joule form a valid registry with positive definitions |
| `Scenarios.NormalizedToMetre` | unum/core.py:216-234 | normalising `N.s2/kg` leaves one symbol, which expands to one metre |
| `Scenarios.NewtonText` | unum/tools/test.py:40 | a newton is shown as `[kg.m/s2]` with the default options, whatever the dictionary order |
| `Scenarios.KilometresConverted` | unum/tools/test.py:214-218 | `(2 km).converted()` is 2000 m, flagged normal; a metre has no conversion |
| `Scenarios.Registration` | tests/test_unum.py:27-31 | registering a symbol twice raises NameConflictError; a derived unit whose single symbol has exponent 2 (`mg2`) is not basic; the `getUnitTable` copy holds the two entries and is not emptied by a later `reset` |

## Left out

- Unit catalogs (unum/units/**, unum/tools/extraunits.py): data only. A few of their units appear as small registries in `Scenarios`.
- Floating point: values are exact reals. `VALUE_FORMAT % value` is the `render` parameter of `Unums.Unum.Str`. An integral float exponent is an integer here, so where Python prints `1.0 [m25.0]` or `[m100.0]` (unum/tools/test.py:96, 98) the unit text of this model is `m25` or `m100`.
- Unums.Unum.Str: the value's text is whatever `render` gives, so the contract fixes only the unit part and the layout.
- Non-integer unit exponents: exponents are integers, so a unit raised to a non-integer exponent gives the `NonIntegerExponent` error instead of a unit like `m0.01`.
- Operators.Pow: a non-integer exponent gives NonIntegerExponent rather than a fractional unit, as the line above says.
- Operators.PowBy: the same restriction to integer exponents.
- Unums.Unum.Normalize: minimality is proved only against every single substitution of the input (`NormalOf`), not against everything the search can reach after several rounds.
- Matching.ConvertTo: conversion is proved to succeed only when one substitution cancels the ratio; for longer chains only soundness (same expansion) and the dimension error are proved.
- Matching.MatchUnits: the same completeness bound as `ConvertTo`.
- Operators.LegacyCompare: the legacy `!=` and `==` go through `__cmp__`, and only `__cmp__` is modelled for the legacy revision.
- Registry.UnitTable.Register: returns the new unit as a quantity; the `_normal` flag the new unum gets is not returned.
- Unregistered symbols: Python raises `KeyError` when it reads the registry for a symbol that has no row (unum/core.py:219, 249). The model instead requires every symbol to be registered (`Registered`). That also excludes inputs Python handles without reading the registry, such as equal units or a zero side in `matchUnits` (unum/core.py:259-267), e.g. adding two quantities of one unregistered unit. The members concerned are listed below.
- Matching.MatchUnits: requires both units registered; see the line on unregistered symbols.
- Operators.Add: requires both units registered; see the line on unregistered symbols.
- Operators.Sub: requires both units registered; see the line on unregistered symbols.
- Operators.Relation: requires both units registered; see the line on unregistered symbols.
- Operators.LegacyCompare: requires both units registered; see the line on unregistered symbols.
- Operators.AsNumber: requires the units registered; see the line on unregistered symbols.
- Operators.Pow: requires the exponent's unit registered; see the line on unregistered symbols.
- Unums.Unum.Normalize: requires the unit registered; see the line on unregistered symbols.
- Registry.UnitTable.UnitDef: requires a definition's symbols registered, where Python's `maxLevel` would raise `KeyError`.
- Registry.UnitTable.Register: requires a definition's symbols registered, as for `UnitDef`. It also requires `key in unit`. Python takes the first key of the unit (unum/core.py:122), so an empty unit raises `IndexError`, an outcome this model does not have.
- Unums.Replaced: requires that the definition `d` does not mention the replaced symbol `u`. In a stratified registry no definition mentions the symbol it defines, so `normalize` and `converted` never call it otherwise. For such a `d`, Python computes the product and then deletes `u`, raising `KeyError` when the product's exponent of `u` is 0; that case is not modelled.
- Unums.Unum.Normalize: requires a stratified registry. Each derived symbol's stored level must exceed the levels of its definition's symbols, and termination is proved with that (`decreases Rank`). `reset(unitTable)` installs any dictionary (unum/core.py:149; `Registry.UnitTable.Reset` does not require `Valid()`), and with a cyclic registry, such as `a = 2 b` and `b = 0.5 a`, Python's search finds a new signature every round and never ends. So do `matchUnits`, `+`, `-`, the comparisons, `asNumber`, `**` and `__str__` on such a registry; the model does not cover that. Stratification also asks for consistent stored levels, which is more than the Python loop needs to terminate: an acyclic registry with arbitrary levels also terminates there.
- numpy, `uarray`, and `__getitem__`/`__setitem__`/`__len__`: container values are out of scope.
- Host numeric casts (`__int__`, `__float__`, `__complex__`, `__long__`): they have no unit logic.
- The reflected operators (`__radd__`, `__rmul__` and the others): each is `coerceToUnum` followed by the plain operator, which are modelled.
- Pickle hooks (`__getstate__`/`__setstate__`): a tuple round trip with no logic.
- unum/tools/calc.py and the `eval` runner of unum/tools/test.py: I/O drivers. Some of the test runner's expected strings are stated as `Scenarios` members.
- Python dictionary aliasing (the shared empty unit, the operand's dictionary returned by `*`, the legacy `__pos__` that shares its dictionary): units are values here, so sharing cannot be observed.
- Registry.UnitTable.Reset: Python installs the caller's dictionary itself (unum/core.py:149), so later registrations also appear in the caller's dictionary; here the table is a value that `Reset` copies in, so that sharing is not modelled.
- `UNIT_FORMAT` is modelled as an opening and a closing string around the body, instead of a `%s` pattern.
- The class-level globals become parameters: the registry is passed as a table, and the format switches as `Options`.
- unum/utils.py, tests/test_core.py and tests/test_utils.py target a later API that unum/core.py does not have.
