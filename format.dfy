/** Rendering a unit as text: `strUnit`.  The class-level display options
    of `Unum` are an `Options` value; the dictionary's iteration order is an
    explicit listing of the unit's symbols. */
module Formatting {
  import opened UnitVectors

  /** The display options.  `divSep` is `UNIT_DIV_SEP`, with "" standing for
      the unset (false-like) separator; `open` and `close` are the text
      around `%s` in `UNIT_FORMAT`. */
  datatype Options = Options(unitSep: string, divSep: string, open: string, close: string,
                             indent: string, hideEmpty: bool, sorting: bool, autoNorm: bool)

  /** The defaults: `.`, `/`, `[%s]`, one space, shown when empty, sorted,
      normalised for display. */
  const Defaults := Options(".", "/", "[", "]", " ", false, true, true)

  // -- decimal text of an exponent (`str(exp)`) ------------------------

  predicate IsDigits(s: string)
  {
    forall i :: 0 <= i < |s| ==> '0' <= s[i] <= '9'
  }

  function DigitChar(d: nat): (c: char)
    requires d < 10
    ensures '0' <= c <= '9' && c as int - '0' as int == d
  {
    "0123456789"[d]
  }

  function NatToString(n: nat): (s: string)
    ensures |s| >= 1 && IsDigits(s)
    decreases n
  {
    if n < 10 then [DigitChar(n)] else NatToString(n / 10) + [DigitChar(n % 10)]
  }

  function IntToString(n: int): (s: string)
    ensures |s| >= 1
    ensures n < 0 <==> s[0] == '-'
    ensures n < 0 ==> s[1..] == NatToString(-n)
    ensures n >= 0 ==> s == NatToString(n)
  {
    if n < 0 then "-" + NatToString(-n) else NatToString(n)
  }

  /** The reading back of decimal text, the inverse of `IntToString`. */
  function ParseNat(s: string): nat
    requires IsDigits(s)
    decreases |s|
  {
    if s == [] then 0
    else ParseNat(s[..|s| - 1]) * 10 + (s[|s| - 1] as int - '0' as int)
  }

  function ParseInt(s: string): int
    requires |s| >= 1 && (s[0] == '-' ==> IsDigits(s[1..])) && (s[0] != '-' ==> IsDigits(s))
  {
    if s[0] == '-' then 0 - ParseNat(s[1..]) else ParseNat(s)
  }

  lemma {:induction false} ParseNatToString(n: nat)
    ensures ParseNat(NatToString(n)) == n
    decreases n
  {
    var s := NatToString(n);
    if n >= 10 {
      ParseNatToString(n / 10);
      assert s[..|s| - 1] == NatToString(n / 10);
    }
  }

  lemma ParseIntToString(n: int)
    ensures ParseInt(IntToString(n)) == n
  {
    if n < 0 {
      ParseNatToString(-n);
    } else {
      ParseNatToString(n);
    }
  }

  // -- the order of `list.sort()` on symbols ---------------------------

  /** Python's string order: code point by code point, a proper prefix first. */
  predicate LexLess(a: string, b: string)
    decreases |a|
  {
    |b| > 0 && (|a| == 0 || a[0] < b[0] || (a[0] == b[0] && LexLess(a[1..], b[1..])))
  }

  lemma {:induction false} LexIrreflexive(a: string)
    ensures !LexLess(a, a)
    decreases |a|
  {
    if |a| > 0 {
      LexIrreflexive(a[1..]);
    }
  }

  lemma {:induction false} LexTrans(a: string, b: string, c: string)
    requires LexLess(a, b) && LexLess(b, c)
    ensures LexLess(a, c)
    decreases |a|
  {
    if |a| > 0 && a[0] == b[0] && b[0] == c[0] {
      LexTrans(a[1..], b[1..], c[1..]);
    }
  }

  lemma {:induction false} LexTotal(a: string, b: string)
    requires a != b
    ensures LexLess(a, b) || LexLess(b, a)
    decreases |a|
  {
    if |a| > 0 && |b| > 0 && a[0] == b[0] {
      assert a == [a[0]] + a[1..] && b == [b[0]] + b[1..];
      LexTotal(a[1..], b[1..]);
    }
  }

  lemma LexAsym(a: string, b: string)
    requires LexLess(a, b)
    ensures !LexLess(b, a)
  {
    if LexLess(b, a) {
      LexTrans(a, b, a);
      LexIrreflexive(a);
    }
  }

  predicate Sorted(s: seq<string>)
  {
    forall i, j :: 0 <= i < j < |s| ==> LexLess(s[i], s[j])
  }

  predicate Distinct(s: seq<string>)
  {
    forall i, j :: 0 <= i < j < |s| ==> s[i] != s[j]
  }

  /** `order` lists the symbols of `u`, each once: one iteration order of the dictionary. */
  predicate IsListing(order: seq<string>, u: Unit)
  {
    (forall k :: k in order ==> k in u) && (forall k :: k in u ==> k in order) && Distinct(order)
  }

  function Insert(x: string, s: seq<string>): seq<string>
  {
    if s == [] then [x]
    else if LexLess(s[0], x) then [s[0]] + Insert(x, s[1..])
    else [x] + s
  }

  /** `sorted(...)` of a list of distinct symbols, by insertion. */
  function Sort(s: seq<string>): seq<string>
  {
    if s == [] then [] else Insert(s[0], Sort(s[1..]))
  }

  lemma {:induction false} InsertPerm(x: string, s: seq<string>)
    ensures multiset(Insert(x, s)) == multiset(s) + multiset{x}
    decreases |s|
  {
    if s != [] && LexLess(s[0], x) {
      InsertPerm(x, s[1..]);
      assert s == [s[0]] + s[1..];
    }
  }

  lemma {:induction false} InsertSorted(x: string, s: seq<string>)
    requires Sorted(s) && x !in s
    ensures Sorted(Insert(x, s))
    decreases |s|
  {
    if s != [] {
      if LexLess(s[0], x) {
        InsertSorted(x, s[1..]);
        InsertPerm(x, s[1..]);
        var r := Insert(x, s[1..]);
        forall j | 0 <= j < |r| ensures LexLess(s[0], r[j]) {
          assert r[j] in multiset(s[1..]) + multiset{x};
        }
      } else {
        LexTotal(x, s[0]);
        forall j | 0 <= j < |s| ensures LexLess(x, s[j]) {
          if j > 0 {
            LexTrans(x, s[0], s[j]);
          }
        }
      }
    }
  }

  lemma {:induction false} SortPerm(s: seq<string>)
    ensures multiset(Sort(s)) == multiset(s)
    decreases |s|
  {
    if s != [] {
      SortPerm(s[1..]);
      InsertPerm(s[0], Sort(s[1..]));
      assert s == [s[0]] + s[1..];
    }
  }

  /** Sorting distinct symbols gives them in strictly increasing order. */
  lemma {:induction false} SortSorted(s: seq<string>)
    requires Distinct(s)
    ensures Sorted(Sort(s))
    decreases |s|
  {
    if s != [] {
      SortSorted(s[1..]);
      SortPerm(s[1..]);
      assert s[0] !in multiset(s[1..]);
      InsertSorted(s[0], Sort(s[1..]));
    }
  }

  /** Two strictly sorted lists of the same symbols are the same list. */
  lemma {:induction false} SortedUnique(a: seq<string>, b: seq<string>)
    requires Sorted(a) && Sorted(b)
    requires forall x :: x in a <==> x in b
    ensures a == b
    decreases |a|
  {
    if a != [] {
      assert b != [] by {
        assert a[0] in b;
      }
      SortedHeads(a, b);
      forall x ensures x in a[1..] <==> x in b[1..] {
        SortedTail(a, x);
        SortedTail(b, x);
      }
      SortedUnique(a[1..], b[1..]);
      assert a == [a[0]] + a[1..] && b == [b[0]] + b[1..];
    } else {
      HeadMember(b);
    }
  }

  lemma HeadMember(b: seq<string>)
    ensures b == [] || b[0] in b
  {
  }

  /** The heads of two sorted lists of the same symbols agree. */
  lemma SortedHeads(a: seq<string>, b: seq<string>)
    requires Sorted(a) && Sorted(b) && a != [] && b != []
    requires forall x :: x in a <==> x in b
    ensures a[0] == b[0]
  {
    assert a[0] in b && b[0] in a;
    var j :| 0 <= j < |b| && b[j] == a[0];
    var i :| 0 <= i < |a| && a[i] == b[0];
    if i > 0 && j > 0 {
      assert LexLess(a[0], b[0]) && LexLess(b[0], a[0]);
      LexAsym(a[0], b[0]);
    }
  }

  /** In a sorted list, the tail holds every member but the head. */
  lemma SortedTail(a: seq<string>, x: string)
    requires Sorted(a) && a != []
    ensures x in a[1..] <==> x in a && x != a[0]
  {
    assert a == [a[0]] + a[1..];
    if x in a[1..] {
      var i :| 0 <= i < |a[1..]| && a[1..][i] == x;
      assert LexLess(a[0], a[i + 1]);
      LexIrreflexive(x);
    }
  }

  lemma SortListing(u: Unit, order: seq<string>)
    requires IsListing(order, u)
    ensures IsListing(Sort(order), u) && Sorted(Sort(order))
  {
    var r := Sort(order);
    SortPerm(order);
    SortSorted(order);
    forall k ensures k in r <==> k in u {
      assert k in r <==> k in multiset(order);
    }
    forall i, j | 0 <= i < j < |r| ensures r[i] != r[j] {
      LexIrreflexive(r[i]);
    }
  }

  /** With sorting on, the dictionary's iteration order does not matter. */
  lemma SortListingsAgree(u: Unit, order1: seq<string>, order2: seq<string>)
    requires IsListing(order1, u) && IsListing(order2, u)
    ensures Sort(order1) == Sort(order2)
  {
    var r1, r2 := Sort(order1), Sort(order2);
    SortListing(u, order1);
    SortListing(u, order2);
    assert forall x :: x in r1 <==> x in r2 by {
      forall x ensures x in r1 <==> x in r2 {
        assert x in r1 <==> x in u;
        assert x in r2 <==> x in u;
      }
    }
    SortedUnique(r1, r2);
  }

  // -- the rendering --------------------------------------------------

  /** `fmt`: an exponent of 1 is left out, any other is written in decimal. */
  function Fmt(e: int): (s: string)
    ensures s == "" <==> e == 1
  {
    if e != 1 then IntToString(e) else ""
  }

  /** A symbol goes before the division separator when its exponent is
      positive, or always when the separator is unset. */
  predicate InNumerator(opts: Options, e: int)
  {
    e > 0 || opts.divSep == ""
  }

  /** A symbol with its exponent; in the denominator the exponent is negated. */
  function Piece(opts: Options, u: Unit, k: string): string
    requires k in u
  {
    k + Fmt(if InNumerator(opts, u[k]) then u[k] else -u[k])
  }

  predicate AllIn(syms: seq<string>, u: Unit)
  {
    forall i :: 0 <= i < |syms| ==> syms[i] in u
  }

  /** The pieces of one side (`numerator` true or false), in listing order. */
  function Pieces(opts: Options, u: Unit, syms: seq<string>, numerator: bool): seq<string>
    requires AllIn(syms, u)
    decreases |syms|
  {
    if syms == [] then []
    else
      var rest := Pieces(opts, u, syms[..|syms| - 1], numerator);
      var k := syms[|syms| - 1];
      if InNumerator(opts, u[k]) == numerator then rest + [Piece(opts, u, k)] else rest
  }

  /** The pieces from the first non-empty one on: the side's text only gets
      a separator once it is non-empty. */
  function Trim(ps: seq<string>): (r: seq<string>)
    ensures r == [] || r[0] != ""
    decreases |ps|
  {
    if ps == [] then []
    else
      var rest := Trim(ps[..|ps| - 1]);
      if rest == [] && ps[|ps| - 1] == "" then [] else rest + [ps[|ps| - 1]]
  }

  function Join(sep: string, ps: seq<string>): string
    decreases |ps|
  {
    if ps == [] then ""
    else if |ps| == 1 then ps[0]
    else Join(sep, ps[..|ps| - 1]) + sep + ps[|ps| - 1]
  }

  /** One side's text: its pieces joined by the unit separator. */
  function Side(opts: Options, u: Unit, syms: seq<string>, numerator: bool): string
    requires AllIn(syms, u)
  {
    Join(opts.unitSep, Trim(Pieces(opts, u, syms, numerator)))
  }

  /** The two sides joined: the numerator (or "1" when only a denominator
      exists), then the division separator and the denominator. */
  function Body(opts: Options, n: string, d: string): string
  {
    if d == "" then n else (if n == "" then "1" else n) + (opts.divSep + d)
  }

  /** The unit format around the body, or nothing for an empty, hidden body. */
  function Wrap(opts: Options, b: string): string
  {
    if b == "" && opts.hideEmpty then "" else opts.open + b + opts.close
  }

  /** The text of `strUnit` for the symbols taken in the order `syms`. */
  function UnitText(opts: Options, u: Unit, syms: seq<string>): string
    requires AllIn(syms, u)
  {
    Wrap(opts, Body(opts, Side(opts, u, syms, true), Side(opts, u, syms, false)))
  }

  /** The order `strUnit` takes the symbols in: sorted, or as listed. */
  function DisplayOrder(opts: Options, order: seq<string>): seq<string>
  {
    if opts.sorting then Sort(order) else order
  }

  /** `text` is what `__str__` prints for `value` in `u` when the dictionary
      lists the symbols in `order`: the rendered value, the indent and the
      unit's text. */
  predicate ShowsIn(opts: Options, render: real -> string, value: real, u: Unit, text: string, order: seq<string>)
  {
    IsListing(order, u) && AllIn(DisplayOrder(opts, order), u) &&
    text == render(value) + opts.indent + UnitText(opts, u, DisplayOrder(opts, order))
  }

  /** `text` is what `__str__` prints for some listing of the symbols. */
  ghost predicate Shows(opts: Options, render: real -> string, value: real, u: Unit, text: string)
  {
    exists order :: ShowsIn(opts, render, value, u, text, order)
  }

  /** With sorting on, the text does not depend on the listing: any listing,
      sorted, gives it. */
  lemma ShowsSorted(opts: Options, render: real -> string, value: real, u: Unit, text: string, order: seq<string>)
    requires opts.sorting && Shows(opts, render, value, u, text) && IsListing(order, u)
    ensures AllIn(Sort(order), u)
    ensures text == render(value) + opts.indent + UnitText(opts, u, Sort(order))
  {
    var o :| ShowsIn(opts, render, value, u, text, o);
    SortListingsAgree(u, o, order);
  }

  lemma ListingAllIn(u: Unit, order: seq<string>, opts: Options)
    requires IsListing(order, u)
    ensures AllIn(DisplayOrder(opts, order), u)
  {
    if opts.sorting {
      SortListing(u, order);
    }
  }

  // -- properties of the rendering ------------------------------------

  lemma {:induction false} JoinNonEmpty(sep: string, ps: seq<string>)
    requires ps != [] && ps[0] != ""
    ensures Join(sep, ps) != ""
    decreases |ps|
  {
    if |ps| > 1 {
      JoinNonEmpty(sep, ps[..|ps| - 1]);
    }
  }

  /** A side's text is empty exactly when it has no non-empty piece. */
  lemma SideEmpty(sep: string, ps: seq<string>)
    ensures Join(sep, Trim(ps)) == "" <==> Trim(ps) == []
  {
    if Trim(ps) != [] {
      JoinNonEmpty(sep, Trim(ps));
    }
  }

  /** With the division separator unset every symbol is in the numerator. */
  lemma {:induction false} NoDivSepNoDenominator(opts: Options, u: Unit, syms: seq<string>)
    requires AllIn(syms, u) && opts.divSep == ""
    ensures Pieces(opts, u, syms, false) == []
    decreases |syms|
  {
    if syms != [] {
      NoDivSepNoDenominator(opts, u, syms[..|syms| - 1]);
    }
  }

  /** With all exponents negative and the separator set, the numerator is empty. */
  lemma {:induction false} AllNegativeNoNumerator(opts: Options, u: Unit, syms: seq<string>)
    requires AllIn(syms, u) && opts.divSep != ""
    requires forall i :: 0 <= i < |syms| ==> u[syms[i]] < 0
    ensures Pieces(opts, u, syms, true) == []
    decreases |syms|
  {
    if syms != [] {
      AllNegativeNoNumerator(opts, u, syms[..|syms| - 1]);
    }
  }

  /** Only denominators: the text starts with "1" and the division separator. */
  lemma OnlyDenominator(opts: Options, u: Unit, syms: seq<string>)
    requires AllIn(syms, u) && opts.divSep != ""
    requires forall i :: 0 <= i < |syms| ==> u[syms[i]] < 0
    requires Trim(Pieces(opts, u, syms, false)) != []
    ensures UnitText(opts, u, syms) ==
      opts.open + ("1" + (opts.divSep + Side(opts, u, syms, false))) + opts.close
  {
    AllNegativeNoNumerator(opts, u, syms);
    SideEmpty(opts.unitSep, Pieces(opts, u, syms, false));
  }

  /** The empty unit is the bare format, or nothing when hidden. */
  lemma EmptyUnitText(opts: Options)
    ensures UnitText(opts, map[], []) == if opts.hideEmpty then "" else opts.open + opts.close
  {
  }

  /** The body is empty exactly when neither side shows a piece; so a
      hidden unit is one with nothing to show. */
  lemma HiddenOnlyWhenEmpty(opts: Options, u: Unit, syms: seq<string>)
    requires AllIn(syms, u)
    ensures Body(opts, Side(opts, u, syms, true), Side(opts, u, syms, false)) == "" <==>
      Trim(Pieces(opts, u, syms, true)) == [] && Trim(Pieces(opts, u, syms, false)) == []
    ensures opts.hideEmpty ==> (UnitText(opts, u, syms) == "" <==>
      Trim(Pieces(opts, u, syms, true)) == [] && Trim(Pieces(opts, u, syms, false)) == [])
  {
    var n, d := Side(opts, u, syms, true), Side(opts, u, syms, false);
    SideEmpty(opts.unitSep, Pieces(opts, u, syms, true));
    SideEmpty(opts.unitSep, Pieces(opts, u, syms, false));
    if d != "" {
      assert |Body(opts, n, d)| >= |d| > 0;
    }
  }

  /** An exponent of 1, or of -1 in the denominator, shows as the bare symbol. */
  lemma UnitExponentOmitted(opts: Options, u: Unit, k: string)
    requires k in u && (u[k] == 1 || (u[k] == -1 && opts.divSep != ""))
    ensures Piece(opts, u, k) == k
  {
  }

  /** Any other exponent is written after the symbol, and reads back. */
  lemma ExponentShown(opts: Options, u: Unit, k: string)
    requires k in u
    requires var e := if InNumerator(opts, u[k]) then u[k] else -u[k]; e != 1
    ensures var e := if InNumerator(opts, u[k]) then u[k] else -u[k];
      Piece(opts, u, k) == k + IntToString(e) && ParseInt(Piece(opts, u, k)[|k|..]) == e
  {
    var e := if InNumerator(opts, u[k]) then u[k] else -u[k];
    assert Piece(opts, u, k)[|k|..] == IntToString(e);
    ParseIntToString(e);
  }

  lemma ExampleSort()
    ensures Sort(["m", "kg", "s"]) == ["kg", "m", "s"]
  {
    assert LexLess("kg", "m") && LexLess("m", "s") && LexLess("kg", "s");
    assert Sort(["s"]) == ["s"];
    assert Sort(["kg", "s"]) == ["kg", "s"];
  }

  const NewtonUnit: Unit := map["m" := 1, "kg" := 1, "s" := -2]

  lemma ExampleNewtonPieces()
    ensures Pieces(Defaults, NewtonUnit, ["kg", "m", "s"], true) == ["kg", "m"]
    ensures Pieces(Defaults, NewtonUnit, ["kg", "m", "s"], false) == ["s2"]
  {
    var u := NewtonUnit;
    assert Fmt(2) == "2";
    assert ["kg", "m", "s"][..2] == ["kg", "m"] && ["kg", "m"][..1] == ["kg"] && ["kg"][..0] == [];
    assert Piece(Defaults, u, "kg") == "kg" && Piece(Defaults, u, "m") == "m" && Piece(Defaults, u, "s") == "s2";
    assert Pieces(Defaults, u, [], true) == [] && Pieces(Defaults, u, [], false) == [];
    assert Pieces(Defaults, u, ["kg"], true) == ["kg"];
    assert Pieces(Defaults, u, ["kg"], false) == [];
    assert Pieces(Defaults, u, ["kg", "m"], true) == ["kg", "m"];
    assert Pieces(Defaults, u, ["kg", "m"], false) == [];
  }

  lemma ExampleNewtonText()
    ensures UnitText(Defaults, NewtonUnit, ["kg", "m", "s"]) == "[kg.m/s2]"
  {
    ExampleNewtonPieces();
    assert ["kg", "m"][..1] == ["kg"] && ["kg"][..0] == [] && ["s2"][..0] == [];
    assert Trim(["kg", "m"]) == ["kg", "m"];
    assert Trim(["s2"]) == ["s2"];
    assert ["kg", "m"][..1] == ["kg"];
    assert Join(".", ["kg", "m"]) == "kg.m";
  }

  /** `kg.m/s2` from `{m: 1, kg: 1, s: -2}` with the default options. */
  lemma ExampleNewton()
    ensures UnitText(Defaults, NewtonUnit, Sort(["m", "kg", "s"])) == "[kg.m/s2]"
  {
    ExampleSort();
    ExampleNewtonText();
  }

  const NoDivSep := Defaults.(divSep := "")
  const MetrePerSecond: Unit := map["m" := 1, "s" := -1]

  /** The pieces of a two-symbol listing. */
  lemma PiecesPair(opts: Options, u: Unit, x: string, y: string, numerator: bool)
    requires x in u && y in u
    ensures AllIn([x, y], u)
    ensures Pieces(opts, u, [x, y], numerator) ==
      (if InNumerator(opts, u[x]) == numerator then [Piece(opts, u, x)] else []) +
      (if InNumerator(opts, u[y]) == numerator then [Piece(opts, u, y)] else [])
  {
    assert [x, y][..1] == [x] && [x][..0] == [];
    assert Pieces(opts, u, [x], numerator) ==
      (if InNumerator(opts, u[x]) == numerator then [Piece(opts, u, x)] else []);
  }

  lemma ExampleNoDivSepPieces()
    ensures Pieces(NoDivSep, MetrePerSecond, ["m", "s"], true) == ["m", "s-1"]
    ensures Pieces(NoDivSep, MetrePerSecond, ["m", "s"], false) == []
  {
    var opts, u := NoDivSep, MetrePerSecond;
    assert Fmt(-1) == "-1";
    assert InNumerator(opts, u["m"]) && InNumerator(opts, u["s"]);
    assert Piece(opts, u, "m") == "m" && Piece(opts, u, "s") == "s-1";
    PiecesPair(opts, u, "m", "s", true);
    PiecesPair(opts, u, "m", "s", false);
  }

  lemma ExampleNoDivSep()
    ensures UnitText(NoDivSep, MetrePerSecond, ["m", "s"]) == "[m.s-1]"
  {
    ExampleNoDivSepPieces();
    assert ["m", "s-1"][..1] == ["m"] && ["m"][..0] == [];
    assert Trim(["m"]) == ["m"];
    assert Trim(["m", "s-1"]) == ["m", "s-1"];
    assert Join(".", ["m", "s-1"]) == "m.s-1";
  }

  /** Only a denominator: `1/s`. */
  lemma ExampleHertz()
    ensures UnitText(Defaults, map["s" := -1], ["s"]) == "[1/s]"
  {
    var u := map["s" := -1];
    assert ["s"][..0] == [];
    assert Piece(Defaults, u, "s") == "s";
    assert Pieces(Defaults, u, [], true) == [] && Pieces(Defaults, u, [], false) == [];
    assert Pieces(Defaults, u, ["s"], true) == [];
    assert Pieces(Defaults, u, ["s"], false) == ["s"];
    assert Trim(["s"]) == ["s"];
  }

  /** One symbol more: its piece joins its side, or the side is unchanged. */
  lemma PiecesStep(opts: Options, u: Unit, before: seq<string>, k: string, numerator: bool)
    requires AllIn(before, u) && k in u
    ensures AllIn(before + [k], u)
    ensures Pieces(opts, u, before + [k], numerator) ==
      Pieces(opts, u, before, numerator) +
      (if InNumerator(opts, u[k]) == numerator then [Piece(opts, u, k)] else [])
  {
    assert (before + [k])[..|before|] == before;
  }

  /** A side's text with one more piece: after the separator unless the
      text is still empty. */
  function Grown(side: string, sep: string, piece: string): string
  {
    (if side != "" then side + sep else "") + piece
  }

  /** Appending a piece to a side's text, as the loop of `strUnit` does. */
  lemma Accumulate(sep: string, ps: seq<string>, p: string)
    ensures Join(sep, Trim(ps + [p])) == Grown(Join(sep, Trim(ps)), sep, p)
  {
    assert (ps + [p])[..|ps|] == ps;
    SideEmpty(sep, ps);
  }

  /** One step of the loop of `strUnit` on one side's text. */
  lemma SideStep(opts: Options, u: Unit, before: seq<string>, k: string, numerator: bool)
    requires AllIn(before, u) && k in u
    ensures AllIn(before + [k], u)
    ensures Side(opts, u, before + [k], numerator) ==
      if InNumerator(opts, u[k]) == numerator
      then Grown(Side(opts, u, before, numerator), opts.unitSep, Piece(opts, u, k))
      else Side(opts, u, before, numerator)
  {
    PiecesStep(opts, u, before, k, numerator);
    if InNumerator(opts, u[k]) == numerator {
      Accumulate(opts.unitSep, Pieces(opts, u, before, numerator), Piece(opts, u, k));
    } else {
      assert Pieces(opts, u, before + [k], numerator) == Pieces(opts, u, before, numerator);
    }
  }

  /** A piece is the symbol and its exponent's text, negated below the line. */
  lemma PieceText(opts: Options, u: Unit, k: string)
    requires k in u
    ensures u[k] > 0 || opts.divSep == "" ==> Piece(opts, u, k) == k + Fmt(u[k])
    ensures !(u[k] > 0 || opts.divSep == "") ==> Piece(opts, u, k) == k + Fmt(-u[k])
  {
  }

  /** `strUnit`: the symbols, sorted when sorting is on, go one by one to
      the numerator or the denominator text, a separator before each but the
      first; then "1" stands in for a missing numerator, and the result is
      wrapped in the unit format unless it is empty and hidden. */
  method StrUnit(opts: Options, u: Unit, order: seq<string>) returns (s: string)
    requires IsListing(order, u)
    ensures AllIn(DisplayOrder(opts, order), u)
    ensures s == UnitText(opts, u, DisplayOrder(opts, order))
  {
    ListingAllIn(u, order, opts);
    var syms := DisplayOrder(opts, order);
    var numer, denom := Sides(opts, u, syms);
    s := Assemble(opts, numer, denom);
  }

  /** The loop of `strUnit`: both sides' texts, symbol by symbol. */
  method Sides(opts: Options, u: Unit, syms: seq<string>) returns (numer: string, denom: string)
    requires AllIn(syms, u)
    ensures numer == Side(opts, u, syms, true) && denom == Side(opts, u, syms, false)
  {
    numer, denom := "", "";
    for i := 0 to |syms|
      invariant AllIn(syms[..i], u)
      invariant numer == Side(opts, u, syms[..i], true)
      invariant denom == Side(opts, u, syms[..i], false)
    {
      assert syms[..i + 1] == syms[..i] + [syms[i]];
      numer := Place(opts, u, syms[..i], syms[i], numer, true);
      denom := Place(opts, u, syms[..i], syms[i], denom, false);
    }
    assert syms[..|syms|] == syms;
  }

  /** One iteration of the loop of `strUnit`, seen from one side: the next
      symbol's piece joins the numerator when its exponent is positive
      or the division separator is unset, and the denominator (exponent
      negated) otherwise, after a separator when that side is not empty. */
  method Place(opts: Options, u: Unit, before: seq<string>, k: string, side: string, numerator: bool)
    returns (side': string)
    requires AllIn(before, u) && k in u
    requires side == Side(opts, u, before, numerator)
    ensures AllIn(before + [k], u)
    ensures side' == Side(opts, u, before + [k], numerator)
  {
    var exp := u[k];
    SideStep(opts, u, before, k, numerator);
    PieceText(opts, u, k);
    side' := side;
    if exp > 0 || opts.divSep == "" {
      if numerator {
        side' := Append(side, opts.unitSep, k + Fmt(exp));
      }
    } else if !numerator {
      side' := Append(side, opts.unitSep, k + Fmt(-exp));
    }
  }

  /** A piece added to one side's text, after the separator unless the text
      is still empty. */
  method Append(side: string, sep: string, piece: string) returns (r: string)
    ensures r == Grown(side, sep, piece)
  {
    r := side;
    if r != "" {
      r := r + sep;
    }
    r := r + piece;
  }

  /** The end of `strUnit`: the division separator and the denominator after
      the numerator, "1" for a missing numerator, and the unit format around
      the result unless it is empty and hidden. */
  method Assemble(opts: Options, numer: string, denom: string) returns (s: string)
    ensures s == Wrap(opts, Body(opts, numer, denom))
  {
    var n, d := numer, denom;
    if d != "" {
      d := opts.divSep + d;
      if n == "" {
        n := "1";
      }
    }
    if n == "" && opts.hideEmpty {
      s := "";
    } else {
      s := opts.open + (n + d) + opts.close;
    }
  }

  lemma DistinctAppend(s: seq<string>, x: string)
    requires Distinct(s) && x !in s
    ensures Distinct(s + [x])
  {
    var r := s + [x];
    forall i, j | 0 <= i < j < |r| ensures r[i] != r[j] {
      if j < |s| {
        assert r[i] == s[i] && r[j] == s[j];
      } else {
        assert r[i] in s;
      }
    }
  }

  /** One iteration order of a dictionary's keys. */
  method Listing(u: Unit) returns (order: seq<string>)
    ensures IsListing(order, u)
  {
    order := [];
    var pending := u.Keys;
    while pending != {}
      invariant pending <= u.Keys
      invariant forall k :: k in order <==> k in u.Keys - pending
      invariant Distinct(order)
      decreases pending
    {
      var k :| k in pending;
      DistinctAppend(order, k);
      order := order + [k];
      pending := pending - {k};
    }
  }
}
