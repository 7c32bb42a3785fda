/** The `Unum` object: a quantity whose value and unit its methods change in
    place, with the `_normal` display flag; and the normaliser, the search
    that rewrites a unit into an equivalent one with fewer symbols. */
module Unums {
  import opened Errors
  import opened Powers
  import opened UnitVectors
  import opened Quantities
  import opened Registry
  import opened Expansion
  import opened Measures
  import opened Formatting

  /** One search state of `normalize`: for every symbol substituted so far,
      the total exponent substituted, and the quantity reached. */
  datatype State = State(sig: map<string, int>, cand: Quantity)

  /** `replaced`: `q` times `d` raised to `u`'s exponent, with `u` deleted.
      It fails with ZeroDivisionError when `d` is 0 and the exponent is
      negative. */
  method Replaced(q: Quantity, u: string, d: Quantity) returns (r: Result<Quantity>)
    requires u in q.unit && u !in d.unit
    ensures r.Err? <==> d.value == 0.0 && q.unit[u] < 0
    ensures r.Err? ==> r.error == ZeroDivision
    ensures r.Ok? ==> u !in r.value.unit && r.value.unit.Keys <= (q.unit.Keys - {u}) + d.unit.Keys
    ensures r.Ok? ==> forall s :: s != u ==> Exp(r.value.unit, s) == Exp(q.unit, s) + Exp(d.unit, s) * q.unit[u]
    ensures r.Ok? ==> r.value.value == q.value * IntPow(d.value, q.unit[u])
    ensures r.Ok? && Canonical(q.unit) && Canonical(d.unit) ==>
      r.value == Times(Quantity(q.value, q.unit - {u}), Power(d, q.unit[u]))
  {
    var e := q.unit[u];
    var p := PowInt(d, e);
    if p.Err? {
      return Err(p.error);
    }
    assert forall s :: Exp(p.value.unit, s) == Exp(d.unit, s) * e;
    var m := Mul(q, p.value);
    r := Ok(Quantity(m.value, m.unit - {u}));
    if Canonical(q.unit) && Canonical(d.unit) {
      RemovedSum(q.unit, Scaled(d.unit, e), u);
    }
  }

  /** A unit with one symbol has no other. */
  lemma SingleKey(m: Unit, u: string)
    requires |m| == 1 && u in m
    ensures m.Keys == {u}
  {
    assert |m.Keys - {u}| == 0;
  }

  /** Deleting a symbol the second vector lacks commutes with the sum. */
  lemma RemovedSum(a: Unit, b: Unit, u: string)
    requires u !in b && Canonical(a) && Canonical(b)
    ensures Sum(a, b) - {u} == Sum(a - {u}, b)
  {
    SumExp(a, b);
    SumExp(a - {u}, b);
    CanonicalEq(Sum(a, b) - {u}, Sum(a - {u}, b));
  }

  /** The duplicate test of `normalize`: does a state already reached in this
      round carry the same substitutions? */
  method SignatureSeen(frontier: seq<State>, sig: map<string, int>) returns (seen: bool)
    ensures seen <==> exists j :: 0 <= j < |frontier| && frontier[j].sig == sig
  {
    var j := 0;
    while j < |frontier|
      invariant 0 <= j <= |frontier|
      invariant forall i :: 0 <= i < j ==> frontier[i].sig != sig
    {
      if frontier[j].sig == sig {
        return true;
      }
      j := j + 1;
    }
    return false;
  }

  predicate Seen(frontier: seq<State>, sig: map<string, int>)
  {
    exists j :: 0 <= j < |frontier| && frontier[j].sig == sig
  }

  /** `next` is `frontier`, or `frontier` with one state of signature `sig` appended. */
  predicate Extends(frontier: seq<State>, next: seq<State>, sig: map<string, int>)
  {
    next == frontier || (|next| == |frontier| + 1 && next[..|frontier|] == frontier && next[|frontier|].sig == sig)
  }

  /** Every signature in `f` only mentions symbols of `keys`. */
  predicate SigsWithin(f: seq<State>, keys: set<string>)
  {
    forall j, k :: 0 <= j < |f| && k in f[j].sig ==> k in keys
  }

  ghost predicate AllRegistered(t: Table, f: seq<State>)
  {
    forall j :: 0 <= j < |f| ==> Registered(t, f[j].cand.unit)
  }

  /** The termination measure of the search: one more than the largest
      weight in the frontier, and 0 for an empty one. */
  ghost function Rank(t: Table, f: seq<State>): nat
    requires AllRegistered(t, f)
    decreases |f|
  {
    if f == [] then 0
    else Max(Weight(t, f[0].cand.unit.Keys) + 1, Rank(t, f[1..]))
  }

  lemma {:induction false} RankMember(t: Table, f: seq<State>, j: int)
    requires AllRegistered(t, f) && 0 <= j < |f|
    ensures Weight(t, f[j].cand.unit.Keys) < Rank(t, f)
    decreases |f|
  {
    if j > 0 {
      RankMember(t, f[1..], j - 1);
    }
  }

  lemma {:induction false} RankBelow(t: Table, f: seq<State>, bound: nat)
    requires AllRegistered(t, f) && bound >= 1
    requires forall j :: 0 <= j < |f| ==> Weight(t, f[j].cand.unit.Keys) + 1 < bound
    ensures Rank(t, f) < bound
    decreases |f|
  {
    if f != [] {
      RankBelow(t, f[1..], bound);
    }
  }

  /** `q` is a registered stand-in for `orig`: the two expand alike. */
  ghost predicate Faithful(t: Table, q: Quantity, orig: Quantity)
  {
    Stratified(t) && Registered(t, q.unit) && Registered(t, orig.unit) &&
    (Sound(t) && Canonical(orig.unit) ==> Canonical(q.unit) && Expand(t, q) == Expand(t, orig))
  }

  /** What the search states of a round keep: each stands in for `orig` and
      weighs less than `bound`. */
  ghost predicate Frontier(t: Table, f: seq<State>, orig: Quantity, bound: nat)
  {
    forall j :: 0 <= j < |f| ==> Faithful(t, f[j].cand, orig) && Weight(t, f[j].cand.unit.Keys) + 1 < bound
  }

  class Unum {
    var value: real
    var unit: Unit
    var normal: bool

    /** `Unum(unit, value)` with no definition: not normalised yet. */
    constructor (unit: Unit, value: real)
      ensures this.unit == unit && this.value == value && !normal
    {
      this.unit := unit;
      this.value := value;
      normal := false;
    }

    function Current(): Quantity
      reads this
    {
      Quantity(value, unit)
    }

    /** The best candidate of the search so far, as `self` and `best_l` hold it. */
    ghost predicate Progress(t: Table, orig: Quantity, best: nat, forDisplay: bool)
      reads this
    {
      Best(t, Current(), orig, best, forDisplay)
    }

    /** `normalize`: a breadth-first search over substitutions of derived
        symbols by their definitions.  A round expands every state of the
        previous one, once per derived symbol, skipping a substitution
        already reached in this round; `self` takes the first candidate with
        fewer symbols than the best so far, except that for display one symbol
        is not traded for none.  The result expands like the input. */
    method Normalize(t: Table, forDisplay: bool) returns (err: Option<Error>)
      requires Stratified(t) && Registered(t, unit)
      modifies this
      ensures normal == old(normal)
      ensures Reduced(t, old(Current()), Current(), forDisplay)
      ensures err.None? ==> NormalOf(t, old(Current()), Current(), forDisplay)
      ensures NoDerived(t, old(unit)) ==> err.None?
      ensures err.Some? ==> err.value == ZeroDivision && !Sound(t)
      ensures Sound(t) && Canonical(old(unit)) ==> err.None?
    {
      ghost var orig := Current();
      ghost var first := true;
      var best: nat := |unit|;
      var frontier := [State(map[], Pos(Current()))];
      while frontier != []
        invariant Progress(t, orig, best, forDisplay)
        invariant forall j :: 0 <= j < |frontier| ==> Faithful(t, frontier[j].cand, orig)
        invariant NoDerived(t, orig.unit) ==> frontier == [] || frontier == [State(map[], orig)]
        invariant first ==> frontier == [State(map[], orig)]
        invariant !first ==> CoveredBy(t, orig, orig.unit.Keys, best, forDisplay)
        invariant normal == old(normal)
        decreases Rank(t, frontier)
      {
        var current := frontier;
        ghost var bound := Rank(t, current);
        RankMember(t, current, 0);
        frontier := [];
        var i := 0;
        while i < |current|
          invariant 0 <= i <= |current|
          invariant Progress(t, orig, best, forDisplay)
          invariant Frontier(t, frontier, orig, bound)
          invariant NoDerived(t, orig.unit) ==> frontier == []
          invariant first ==> current == [State(map[], orig)] && (i == 0 ==> frontier == [])
          invariant (!first || i > 0) ==> CoveredBy(t, orig, orig.unit.Keys, best, forDisplay)
          invariant normal == old(normal)
        {
          RankMember(t, current, i);
          ghost var before := best;
          var failure;
          frontier, best, failure := Explore(t, forDisplay, current[i], frontier, best, orig, bound, first && i == 0);
          if failure.Some? {
            return failure;
          }
          if !first || i > 0 {
            CoveredByMono(t, orig, orig.unit.Keys, before, best, forDisplay);
          }
          i := i + 1;
        }
        assert AllRegistered(t, frontier);
        RankBelow(t, frontier, bound);
        first := false;
      }
      return None;
    }

    /** `copy(normalized)`: a new unum with the same value and unit, not
        flagged normal, and normalised (not for display) when asked. */
    method Copy(t: Table, normalized: bool) returns (c: Unum, err: Option<Error>)
      requires normalized ==> Stratified(t) && Registered(t, unit)
      ensures fresh(c) && !c.normal
      ensures !normalized ==> c.Current() == Current() && err.None?
      ensures normalized ==> Reduced(t, Current(), c.Current(), false)
      ensures normalized && err.None? ==> NormalOf(t, Current(), c.Current(), false)
      ensures err.Some? ==> err.value == ZeroDivision && !Sound(t)
      ensures normalized && (NoDerived(t, unit) || (Sound(t) && Canonical(unit))) ==> err.None?
    {
      c := new Unum(unit, value);
      err := None;
      if normalized {
        err := c.Normalize(t, false);
      }
    }

    /** `fix` (legacy): flag the unum normal, so that display leaves it as it is. */
    method Fix()
      modifies this
      ensures normal && Current() == old(Current())
    {
      normal := true;
    }

    /** `__str__`: with automatic normalisation on, a unum not yet flagged is
        normalised for display and flagged; then the value's text, the indent
        and the unit's text.  `render` stands for the value format. */
    method Str(t: Table, opts: Options, render: real -> string) returns (r: Result<string>)
      requires Stratified(t) && Registered(t, unit)
      modifies this
      ensures opts.autoNorm && !old(normal) ==> Reduced(t, old(Current()), Current(), true) && (normal <==> r.Ok?)
      ensures opts.autoNorm && !old(normal) && r.Ok? ==> NormalOf(t, old(Current()), Current(), true)
      ensures !opts.autoNorm || old(normal) ==> r.Ok? && Current() == old(Current()) && normal == old(normal)
      ensures r.Err? ==> r.error == ZeroDivision && !Sound(t)
      ensures Sound(t) && Canonical(old(unit)) ==> r.Ok?
      ensures r.Ok? ==> Shows(opts, render, value, unit, r.value)
    {
      if opts.autoNorm && !normal {
        var err := Normalize(t, true);
        if err.Some? {
          return Err(err.value);
        }
        normal := true;
      }
      var order := Listing(unit);
      var text := StrUnit(opts, unit, order);
      r := Ok(render(value) + opts.indent + text);
      assert ShowsIn(opts, render, value, unit, r.value, order);
    }

    /** `converted` (legacy): the single symbol of the unit replaced by its
        definition, flagged normal.  It fails with NoConversion unless the
        unit has exactly one symbol and that symbol is derived. */
    method Converted(t: Table) returns (r: Result<Unum>)
      requires Stratified(t) && Registered(t, unit)
      ensures r.Ok? ==> fresh(r.value) && r.value.normal
      ensures |unit| != 1 ==> r == Err(NoConversion)
      ensures |unit| == 1 ==> forall u :: u in unit ==>
        (t[u].definition.None? ==> r == Err(NoConversion)) &&
        (t[u].definition.Some? ==>
          (r.Err? <==> t[u].definition.value.value == 0.0 && unit[u] < 0) &&
          (r.Ok? ==> u !in r.value.unit && r.value.unit.Keys <= t[u].definition.value.unit.Keys &&
                     r.value.value == value * IntPow(t[u].definition.value.value, unit[u])) &&
          (r.Ok? && Sound(t) && Canonical(unit) ==>
             r.value.Current() == Times(Quantity(value, map[]), Power(t[u].definition.value, unit[u]))))
      ensures r.Ok? ==> Faithful(t, r.value.Current(), Current())
      ensures r.Err? ==> r.error == NoConversion || (r.error == ZeroDivision && !Sound(t))
    {
      if |unit| != 1 {
        return Err(NoConversion);
      }
      var u :| u in unit;
      SingleKey(unit, u);
      var conv := t[u].definition;
      if conv.None? {
        return Err(NoConversion);
      }
      assert DefinedBelow(t, u);
      var s := Replaced(Current(), u, conv.value);
      if s.Err? {
        return Err(s.error);
      }
      ReplacedFaithful(t, Current(), u, s.value, Current());
      assert unit - {u} == map[];
      var c := new Unum(s.value.unit, s.value.value);
      c.Fix();
      r := Ok(c);
    }

    /** The body of the loop over one state's symbols: every derived symbol
        not yet substituted this way in the round yields a new state, and
        possibly a better `self`.  In the first round (`first`) the start
        state is the input and every derived symbol of it is tried. */
    method Explore(t: Table, forDisplay: bool, st: State, frontier: seq<State>, best: nat,
                   ghost orig: Quantity, ghost bound: nat, ghost first: bool)
      returns (next: seq<State>, best': nat, err: Option<Error>)
      requires Faithful(t, st.cand, orig)
      requires Weight(t, st.cand.unit.Keys) < bound
      requires Frontier(t, frontier, orig, bound)
      requires Progress(t, orig, best, forDisplay)
      requires NoDerived(t, orig.unit) ==> st.cand == orig
      requires first ==> frontier == [] && st.sig == map[]
      modifies this
      ensures normal == old(normal)
      ensures Progress(t, orig, best', forDisplay)
      ensures Frontier(t, next, orig, bound)
      ensures Decrease(forDisplay, best, best')
      ensures NoDerived(t, st.cand.unit) ==> err.None? && next == frontier && best' == best && Current() == old(Current())
      ensures err.Some? ==> err.value == ZeroDivision && !Sound(t)
      ensures first && err.None? ==> CoveredBy(t, st.cand, st.cand.unit.Keys, best', forDisplay)
    {
      next, best', err := frontier, best, None;
      var pending := st.cand.unit.Keys;
      while pending != {}
        invariant pending <= st.cand.unit.Keys
        invariant normal == old(normal)
        invariant Progress(t, orig, best', forDisplay)
        invariant Frontier(t, next, orig, bound)
        invariant Decrease(forDisplay, best, best')
        invariant NoDerived(t, st.cand.unit) ==> next == frontier && best' == best && Current() == old(Current())
        invariant err.None?
        invariant first ==> SigsWithin(next, st.cand.unit.Keys - pending)
        invariant first ==> CoveredBy(t, st.cand, st.cand.unit.Keys - pending, best', forDisplay)
        decreases pending
      {
        var u :| u in pending;
        ghost var before := best';
        next, best', err := Visit(t, forDisplay, st, u, next, best', orig, bound, first, pending);
        if err.Some? {
          return;
        }
        DecreaseTrans(forDisplay, best, before, best');
        pending := pending - {u};
      }
    }

    /** `Substitute` on a symbol `u` still `pending`, together with what the
        first round learns from it. */
    method Visit(t: Table, forDisplay: bool, st: State, u: string, frontier: seq<State>, best: nat,
                 ghost orig: Quantity, ghost bound: nat, ghost first: bool, ghost pending: set<string>)
      returns (next: seq<State>, best': nat, err: Option<Error>)
      requires u in pending && pending <= st.cand.unit.Keys
      requires Faithful(t, st.cand, orig)
      requires Weight(t, st.cand.unit.Keys) < bound
      requires Frontier(t, frontier, orig, bound)
      requires Progress(t, orig, best, forDisplay)
      requires NoDerived(t, orig.unit) ==> st.cand == orig
      requires first ==> st.sig == map[]
      requires first ==> SigsWithin(frontier, st.cand.unit.Keys - pending)
      requires first ==> CoveredBy(t, st.cand, st.cand.unit.Keys - pending, best, forDisplay)
      modifies this
      ensures normal == old(normal)
      ensures Progress(t, orig, best', forDisplay)
      ensures Frontier(t, next, orig, bound)
      ensures Decrease(forDisplay, best, best')
      ensures NoDerived(t, st.cand.unit) ==> err.None? && next == frontier && best' == best && Current() == old(Current())
      ensures err.Some? ==> err.value == ZeroDivision && !Sound(t)
      ensures first && err.None? ==> SigsWithin(next, st.cand.unit.Keys - (pending - {u}))
      ensures first && err.None? ==> CoveredBy(t, st.cand, st.cand.unit.Keys - (pending - {u}), best', forDisplay)
    {
      assert NoDerived(t, st.cand.unit) ==> t[u].definition.None?;
      next, best', err := Substitute(t, forDisplay, st, u, frontier, best, orig, bound);
      if first && err.None? {
        ghost var done := st.cand.unit.Keys - pending;
        FirstRoundStep(t, forDisplay, st, u, done, frontier, next, best, best');
        assert done + {u} == st.cand.unit.Keys - (pending - {u});
      }
    }

    /** One symbol `u` of a state: when it is derived and this substitution
        is new in the round, the replaced state joins the round and may
        become the new `self`. */
    method Substitute(t: Table, forDisplay: bool, st: State, u: string, frontier: seq<State>, best: nat,
                      ghost orig: Quantity, ghost bound: nat)
      returns (next: seq<State>, best': nat, err: Option<Error>)
      requires u in st.cand.unit
      requires Faithful(t, st.cand, orig)
      requires Weight(t, st.cand.unit.Keys) < bound
      requires Frontier(t, frontier, orig, bound)
      requires Progress(t, orig, best, forDisplay)
      requires NoDerived(t, orig.unit) ==> st.cand == orig
      modifies this
      ensures normal == old(normal)
      ensures Progress(t, orig, best', forDisplay)
      ensures Frontier(t, next, orig, bound)
      ensures Decrease(forDisplay, best, best')
      ensures t[u].definition.None? ==> err.None? && next == frontier && best' == best && Current() == old(Current())
      ensures err.Some? ==> err.value == ZeroDivision && !Sound(t)
      ensures Extends(frontier, next, st.sig[u := st.cand.unit[u] + Exp(st.sig, u)])
      ensures Seen(frontier, st.sig[u := st.cand.unit[u] + Exp(st.sig, u)]) || err.Some? || t[u].definition.None? ||
              !Canonical(st.cand.unit) || !Sound(t) ||
              Covered(forDisplay, best', |StepUnit(st.cand, u, t[u].definition.value)|)
    {
      next, best', err := frontier, best, None;
      var conv := t[u].definition;
      if conv.None? {
        return;
      }
      var sig := st.sig[u := st.cand.unit[u] + Exp(st.sig, u)];
      var seen := SignatureSeen(next, sig);
      if seen {
        return;
      }
      assert DefinedBelow(t, u);
      var s := Replaced(st.cand, u, conv.value);
      if s.Err? {
        return next, best', Some(s.error);
      }
      ReplacedFaithful(t, st.cand, u, s.value, orig);
      ReplacedWeight(t, st.cand.unit.Keys, u, s.value.unit.Keys);
      FrontierAppend(t, next, State(sig, s.value), orig, bound);
      next := next + [State(sig, s.value)];
      assert !NoDerived(t, orig.unit);
      best' := Adopt(t, forDisplay, s.value, best, orig);
    }

    /** The candidate `s` becomes `self` when it has fewer symbols than the
        best so far, except that for display one symbol is not traded for none. */
    method Adopt(t: Table, forDisplay: bool, s: Quantity, best: nat, ghost orig: Quantity) returns (best': nat)
      requires Progress(t, orig, best, forDisplay) && Faithful(t, s, orig) && !NoDerived(t, orig.unit)
      modifies this
      ensures normal == old(normal)
      ensures Progress(t, orig, best', forDisplay)
      ensures Decrease(forDisplay, best, best')
      ensures Covered(forDisplay, best', |s.unit|)
      ensures best' == best ==> Current() == old(Current())
      ensures best' != best ==> Current() == s && best' == |s.unit|
    {
      best' := best;
      var size := |s.unit|;
      if size < best' && !(forDisplay && size == 0 && best' == 1) {
        BestAdopt(t, Current(), orig, best', forDisplay, s);
        value, unit := s.value, s.unit;
        best' := size;
      }
    }
  }

  /** What `normalize` guarantees of its result `n` for the input `q`: never
      more symbols and only different with fewer, a single symbol kept as it
      is when displaying, the input itself when nothing is derived, and
      faithful. */
  ghost predicate Reduced(t: Table, q: Quantity, n: Quantity, forDisplay: bool)
  {
    |n.unit| <= |q.unit| &&
    (n != q ==> |n.unit| < |q.unit|) &&
    (forDisplay && |q.unit| == 1 ==> n == q) &&
    (NoDerived(t, q.unit) ==> n == q) &&
    Faithful(t, n, q)
  }

  /** The unit `replaced` gives `q` for the symbol `u` with definition `d`. */
  function StepUnit(q: Quantity, u: string, d: Quantity): Unit
    requires u in q.unit
  {
    Sum(q.unit - {u}, Scaled(d.unit, q.unit[u]))
  }

  /** A candidate with `size` symbols would not displace a best of `best`. */
  predicate Covered(forDisplay: bool, best: nat, size: nat)
  {
    best <= size || (forDisplay && size == 0 && best == 1)
  }

  /** `best` is covered by the one-step substitution of every derived symbol
      of `q` in `keys`. */
  ghost predicate CoveredBy(t: Table, q: Quantity, keys: set<string>, best: nat, forDisplay: bool)
  {
    Sound(t) && Canonical(q.unit) ==>
      forall v :: v in keys && v in q.unit && v in t && t[v].definition.Some? ==>
        Covered(forDisplay, best, |StepUnit(q, v, t[v].definition.value)|)
  }

  /** `Reduced`, and no longer than any single substitution in the input:
      the first round of the search tries them all. */
  ghost predicate NormalOf(t: Table, q: Quantity, n: Quantity, forDisplay: bool)
  {
    Reduced(t, q, n, forDisplay) && CoveredBy(t, q, q.unit.Keys, |n.unit|, forDisplay)
  }

  /** How the best size may change: not at all, or down, but never from one to
      none when displaying. */
  predicate Decrease(forDisplay: bool, best: nat, best': nat)
  {
    best' == best || (best' < best && !(forDisplay && best' == 0 && best == 1))
  }

  lemma DecreaseTrans(forDisplay: bool, a: nat, b: nat, c: nat)
    requires Decrease(forDisplay, a, b) && Decrease(forDisplay, b, c)
    ensures Decrease(forDisplay, a, c)
  {
  }

  lemma CoveredByMono(t: Table, q: Quantity, keys: set<string>, best: nat, best': nat, forDisplay: bool)
    requires CoveredBy(t, q, keys, best, forDisplay) && Decrease(forDisplay, best, best')
    ensures CoveredBy(t, q, keys, best', forDisplay)
  {
  }

  /** The search's best candidate `cur` and its size `best`. */
  ghost predicate Best(t: Table, cur: Quantity, orig: Quantity, best: nat, forDisplay: bool)
  {
    best == |cur.unit| && Reduced(t, orig, cur, forDisplay)
  }

  /** Adopting a smaller faithful candidate keeps `Best`. */
  lemma BestAdopt(t: Table, cur: Quantity, orig: Quantity, best: nat, forDisplay: bool, s: Quantity)
    requires Best(t, cur, orig, best, forDisplay) && Faithful(t, s, orig) && !NoDerived(t, orig.unit)
    requires |s.unit| < best && !(forDisplay && |s.unit| == 0 && best == 1)
    ensures Best(t, s, orig, |s.unit|, forDisplay)
  {
  }

  /** In the first round every state so far came from the start state, whose
      signature is empty, through a symbol already done; so the symbol `u`
      taken now was not seen and its substitution is covered. */
  lemma FirstRoundStep(t: Table, forDisplay: bool, st: State, u: string, done: set<string>,
                       was: seq<State>, next: seq<State>, before: nat, best': nat)
    requires st.sig == map[] && u in st.cand.unit && u in t && u !in done && done <= st.cand.unit.Keys
    requires SigsWithin(was, done)
    requires CoveredBy(t, st.cand, done, before, forDisplay)
    requires Decrease(forDisplay, before, best')
    requires Extends(was, next, st.sig[u := st.cand.unit[u] + Exp(st.sig, u)])
    requires Seen(was, st.sig[u := st.cand.unit[u] + Exp(st.sig, u)]) || t[u].definition.None? ||
             !Canonical(st.cand.unit) || !Sound(t) ||
             Covered(forDisplay, best', |StepUnit(st.cand, u, t[u].definition.value)|)
    ensures SigsWithin(next, done + {u})
    ensures CoveredBy(t, st.cand, done + {u}, best', forDisplay)
  {
    var sig := st.sig[u := st.cand.unit[u] + Exp(st.sig, u)];
    forall j | 0 <= j < |was|
      ensures u !in was[j].sig
    {
      assert SigsWithin(was, done);
    }
    assert u in sig;
    assert !Seen(was, sig);
    forall j, k | 0 <= j < |next| && k in next[j].sig
      ensures k in done + {u}
    {
      if j < |was| {
        assert next[j] == next[..|was|][j] == was[j];
      } else {
        assert next[j].sig == sig;
      }
    }
  }

  lemma FrontierAppend(t: Table, f: seq<State>, st: State, orig: Quantity, bound: nat)
    requires Frontier(t, f, orig, bound)
    requires Faithful(t, st.cand, orig) && Weight(t, st.cand.unit.Keys) + 1 < bound
    ensures Frontier(t, f + [st], orig, bound)
  {
  }

  /** A replacement step keeps a stand-in faithful. */
  lemma ReplacedFaithful(t: Table, q: Quantity, u: string, r: Quantity, orig: Quantity)
    requires Faithful(t, q, orig) && u in q.unit && t[u].definition.Some?
    requires r.unit.Keys <= (q.unit.Keys - {u}) + t[u].definition.value.unit.Keys
    requires Sound(t) && Canonical(orig.unit) ==>
      r == Times(Quantity(q.value, q.unit - {u}), Power(t[u].definition.value, q.unit[u]))
    ensures Faithful(t, r, orig)
  {
    assert DefinedBelow(t, u);
    if Sound(t) && Canonical(orig.unit) {
      ExpandReplaced(t, q, u);
      var d := t[u].definition.value;
      SumExp(q.unit - {u}, Power(d, q.unit[u]).unit);
    }
  }
}
