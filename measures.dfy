/** The termination measure of the normaliser.  A set of registered symbols
    weighs the sum of `(|t| + 1) ^ level` over its members.  Replacing a
    symbol of level `L` by its definition removes `(|t| + 1) ^ L` and adds at
    most `|t|` symbols of level below `L`, each of weight at most
    `(|t| + 1) ^ (L - 1)`, so the weight strictly drops. */
module Measures {
  import opened Powers
  import opened Registry

  ghost function Weight(t: Table, keys: set<string>): nat
    requires keys <= t.Keys
  {
    if keys == {} then 0
    else
      var k :| k in keys;
      NatPow(|t| + 1, t[k].level) + Weight(t, keys - {k})
  }

  /** The sum may take out any member first. */
  lemma {:induction false} WeightPick(t: Table, keys: set<string>, k: string)
    requires keys <= t.Keys && k in keys
    ensures Weight(t, keys) == NatPow(|t| + 1, t[k].level) + Weight(t, keys - {k})
    decreases keys
  {
    var j :| j in keys && Weight(t, keys) == NatPow(|t| + 1, t[j].level) + Weight(t, keys - {j});
    if j != k {
      assert keys - {j} - {k} == keys - {k} - {j};
      WeightPick(t, keys - {j}, k);
      WeightPick(t, keys - {k}, j);
    }
  }

  lemma {:induction false} WeightSubset(t: Table, a: set<string>, b: set<string>)
    requires a <= b <= t.Keys
    ensures Weight(t, a) <= Weight(t, b)
    decreases a
  {
    if a != {} {
      var k :| k in a;
      WeightPick(t, a, k);
      WeightPick(t, b, k);
      WeightSubset(t, a - {k}, b - {k});
    }
  }

  lemma {:induction false} WeightUnion(t: Table, a: set<string>, b: set<string>)
    requires a <= t.Keys && b <= t.Keys
    ensures Weight(t, a + b) <= Weight(t, a) + Weight(t, b)
    decreases a
  {
    if a == {} {
      assert a + b == b;
    } else {
      var k :| k in a;
      WeightPick(t, a, k);
      WeightPick(t, a + b, k);
      WeightUnion(t, a - {k}, b);
      WeightSubset(t, (a + b) - {k}, (a - {k}) + b);
    }
  }

  /** Symbols all below level `level` weigh at most `|keys|` times `(|t| + 1) ^ (level - 1)`. */
  lemma {:induction false} WeightBelow(t: Table, keys: set<string>, level: nat)
    requires keys <= t.Keys && level >= 1
    requires forall s :: s in keys ==> t[s].level < level
    ensures Weight(t, keys) <= |keys| * NatPow(|t| + 1, level - 1)
    decreases keys
  {
    if keys != {} {
      var k :| k in keys;
      WeightPick(t, keys, k);
      WeightBelow(t, keys - {k}, level);
      NatPowMonotone(|t| + 1, t[k].level, level - 1);
      var n, x := |keys - {k}|, NatPow(|t| + 1, level - 1);
      assert |keys| == n + 1;
      ScaleSucc(n, x);
    }
  }

  lemma ScaleSucc(n: nat, x: nat)
    ensures (n + 1) * x == n * x + x
  {
  }

  lemma {:induction false} SubsetCard(a: set<string>, b: set<string>)
    requires a <= b
    ensures |a| <= |b|
    decreases a
  {
    if a != {} {
      var k :| k in a;
      SubsetCard(a - {k}, b - {k});
    }
  }

  lemma ScaleBound(n: nat, m: nat, x: nat)
    requires n <= m && x >= 1
    ensures n * x < (m + 1) * x
  {
  }

  lemma NatPowStep(b: nat, e: nat)
    requires e >= 1
    ensures NatPow(b, e) == b * NatPow(b, e - 1)
  {
  }

  /** The weight drops when one derived symbol `u` is replaced by the symbols
      of its definition. */
  lemma ReplacedWeight(t: Table, before: set<string>, u: string, after: set<string>)
    requires Stratified(t) && before <= t.Keys && u in before && t[u].definition.Some?
    requires after <= (before - {u}) + t[u].definition.value.unit.Keys
    ensures after <= t.Keys
    ensures Weight(t, after) < Weight(t, before)
  {
    var d := t[u].definition.value.unit.Keys;
    DefinitionBound(t, u);
    AfterBound(t, before - {u}, d, after);
    WeightPick(t, before, u);
  }

  /** What replaces the symbol weighs no more than the rest plus the definition. */
  lemma AfterBound(t: Table, rest: set<string>, d: set<string>, after: set<string>)
    requires rest <= t.Keys && d <= t.Keys && after <= rest + d
    ensures Weight(t, after) <= Weight(t, rest) + Weight(t, d)
  {
    WeightSubset(t, after, rest + d);
    WeightUnion(t, rest, d);
  }

  /** A definition's symbols weigh less than the symbol they define. */
  lemma DefinitionBound(t: Table, u: string)
    requires Stratified(t) && u in t && t[u].definition.Some?
    ensures t[u].definition.value.unit.Keys <= t.Keys
    ensures Weight(t, t[u].definition.value.unit.Keys) < NatPow(|t| + 1, t[u].level)
  {
    var d := t[u].definition.value.unit.Keys;
    var level := t[u].level;
    assert DefinedBelow(t, u);
    WeightBelow(t, d, level);
    SubsetCard(d, t.Keys);
    assert |t.Keys| == |t|;
    NatPowPositive(|t| + 1, level - 1);
    NatPowStep(|t| + 1, level);
    BelowPower(Weight(t, d), |d|, |t|, NatPow(|t| + 1, level - 1), NatPow(|t| + 1, level));
  }

  /** `n` things of weight at most `x` each, `n <= m`, weigh less than `(m + 1) * x`. */
  lemma BelowPower(w: nat, n: nat, m: nat, x: nat, p: nat)
    requires w <= n * x && n <= m && x >= 1 && p == (m + 1) * x
    ensures w < p
  {
    ScaleBound(n, m, x);
  }
}
