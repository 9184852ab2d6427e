/** Which nonterminal derives which alone: the fixpoint over the derivability matrix. */
module Derivability {
  import opened Grammars

  /** Nonterminal 0 stands for the empty string; it occurs in no production. */
  const EMPTY: nat := 0

  ghost predicate ProperGrammar(g: Grammar) {
    && 0 < g.numNonterms
    && forall p: nat :: p < |g.prods| ==> ProperProduction(g, g.prods[p])
  }

  ghost predicate ProperProduction(g: Grammar, prod: Production) {
    && EMPTY < prod.lhs < g.numNonterms
    && forall i :: 0 <= i < |prod.rhs| && prod.rhs[i].N? ==> EMPTY < prod.rhs[i].n < g.numNonterms
  }

  // ---------------------------------------------------------------- the true relation

  /** A chain of unit steps. */
  ghost predicate UnitChain(g: Grammar, chain: seq<nat>) {
    chain != [] && forall i, j :: 0 <= i < j < |chain| && j == i + 1 ==> UnitStep(g, chain[i], chain[j])
  }

  /** A =>* B, where B is one nonterminal. */
  ghost predicate DerivesAlone(g: Grammar, a: nat, b: nat) {
    exists chain :: UnitChain(g, chain) && chain[0] == a && chain[|chain| - 1] == b
  }

  /** A =>+ A for some A. */
  ghost predicate Cyclic(g: Grammar, a: nat) {
    exists b: nat :: UnitStep(g, a, b) && DerivesAlone(g, b, a)
  }

  /** What an entry of the matrix claims: B alone, or nothing at all for B the empty string. */
  ghost predicate TrulyDerives(g: Grammar, a: nat, b: nat) {
    if b == EMPTY then a == EMPTY || Nullable(g, N(a)) else DerivesAlone(g, a, b)
  }

  lemma DerivesRefl(g: Grammar, a: nat)
    ensures DerivesAlone(g, a, a)
  {
    assert UnitChain(g, [a]) && [a][0] == a && [a][0] == a;
  }

  lemma DerivesTrans(g: Grammar, a: nat, b: nat, c: nat)
    requires DerivesAlone(g, a, b) && DerivesAlone(g, b, c)
    ensures DerivesAlone(g, a, c)
  {
    var c1 :| UnitChain(g, c1) && c1[0] == a && c1[|c1| - 1] == b;
    var c2 :| UnitChain(g, c2) && c2[0] == b && c2[|c2| - 1] == c;
    var chain := c1 + c2[1..];
    forall i, j | 0 <= i < j < |chain| && j == i + 1 ensures UnitStep(g, chain[i], chain[j]) {
      if j >= |c1| {
        assert chain[j] == c2[j - |c1| + 1] && chain[i] == c2[i - |c1| + 1];
      }
    }
    assert UnitChain(g, chain) && chain[0] == a && chain[|chain| - 1] == c;
  }

  lemma DerivesOne(g: Grammar, a: nat, b: nat)
    requires UnitStep(g, a, b)
    ensures DerivesAlone(g, a, b)
  {
    assert UnitChain(g, [a, b]) && [a, b][0] == a && [a, b][1] == b;
  }

  /** Symbols that all vanish derive the empty string together. */
  lemma {:induction false} NullableSeq(g: Grammar, xs: seq<Symbol>) returns (f: Forest)
    requires forall i :: 0 <= i < |xs| ==> Nullable(g, xs[i])
    ensures PlainAll(f) && ProducesAll(g, f, xs) && Yields(f) == []
  {
    if xs == [] {
      f := Nil;
    } else {
      var rest := NullableSeq(g, xs[1..]);
      assert Nullable(g, xs[0]);
      var tree :| Plain(tree) && Produces(g, tree, xs[0]) && Yield(tree) == [];
      f := Cons(tree, rest);
    }
  }

  lemma NullableBy(g: Grammar, p: nat)
    requires p < |g.prods| && forall i :: 0 <= i < |g.prods[p].rhs| ==> Nullable(g, g.prods[p].rhs[i])
    ensures Nullable(g, N(g.prods[p].lhs))
  {
    var f := NullableSeq(g, g.prods[p].rhs);
    var tree := Node(p, f);
    assert Plain(tree) && Produces(g, tree, N(g.prods[p].lhs)) && Yield(tree) == [];
  }

  lemma {:induction false} ChainNullable(g: Grammar, chain: seq<nat>)
    requires UnitChain(g, chain) && Nullable(g, N(chain[|chain| - 1]))
    ensures Nullable(g, N(chain[0]))
    decreases |chain|
  {
    if |chain| > 1 {
      ChainNullable(g, chain[1..]);
      assert UnitStep(g, chain[0], chain[1]);
      var p: nat, i: nat :| UnitStepBy(g, chain[0], chain[1], p, i);
      NullableBy(g, p);
    }
  }

  /** The claims compose. */
  lemma TrulyTrans(g: Grammar, a: nat, b: nat, c: nat)
    requires a != EMPTY && b != EMPTY && TrulyDerives(g, a, b) && TrulyDerives(g, b, c)
    ensures TrulyDerives(g, a, c)
  {
    if c == EMPTY {
      var chain :| UnitChain(g, chain) && chain[0] == a && chain[|chain| - 1] == b;
      ChainNullable(g, chain);
    } else {
      DerivesTrans(g, a, b, c);
    }
  }

  // ---------------------------------------------------------------- matrices

  /** The set of pairs marked in the matrix. */
  type Rel = set<(nat, nat)>

  ghost predicate RelSound(g: Grammar, m: Rel) {
    forall e :: e in m ==>
      e.0 < g.numNonterms && e.1 < g.numNonterms && TrulyDerives(g, e.0, e.1) && (e.0 == EMPTY ==> e.1 == EMPTY)
  }

  ghost predicate RelComplete(g: Grammar, m: Rel) {
    forall a: nat, b: nat :: a < g.numNonterms && b < g.numNonterms && TrulyDerives(g, a, b) ==> (a, b) in m
  }

  ghost predicate Vanishes(m: Rel, x: Symbol) {
    x.N? && (x.n, EMPTY) in m
  }

  /** By what the matrix says, production `p` reduces to its `i`-th symbol alone. */
  ghost predicate OneLeft(m: Rel, prod: Production, i: nat) {
    && i < |prod.rhs| && prod.rhs[i].N?
    && forall j :: 0 <= j < |prod.rhs| && j != i ==> Vanishes(m, prod.rhs[j])
  }

  ghost predicate ProductionSettled(m: Rel, prod: Production) {
    && (prod.rhs == [] ==> (prod.lhs, EMPTY) in m)
    && forall i: nat :: OneLeft(m, prod, i) ==> (prod.lhs, prod.rhs[i].n) in m
  }

  ghost predicate StepClosed(m: Rel, u: nat, v: nat, w: nat) {
    u != EMPTY && u != v && v != w && (u, v) in m && (v, w) in m ==> (u, w) in m
  }

  /** Nothing is left to discover. */
  ghost predicate Settled(g: Grammar, m: Rel) {
    && (forall a: nat :: a < g.numNonterms ==> (a, a) in m)
    && (forall p: nat :: p < |g.prods| ==> ProductionSettled(m, g.prods[p]))
    && (forall u: nat, v: nat, w: nat :: StepClosed(m, u, v, w))
  }

  lemma OneLeftIsUnitStep(g: Grammar, m: Rel, p: nat, i: nat)
    requires ProperGrammar(g) && RelSound(g, m) && p < |g.prods| && OneLeft(m, g.prods[p], i)
    ensures UnitStepBy(g, g.prods[p].lhs, g.prods[p].rhs[i].n, p, i)
  {
    assert ProperProduction(g, g.prods[p]);
    forall j | 0 <= j < |g.prods[p].rhs| && j != i ensures Nullable(g, g.prods[p].rhs[j]) {
      assert Vanishes(m, g.prods[p].rhs[j]);
      assert TrulyDerives(g, g.prods[p].rhs[j].n, EMPTY);
    }
  }

  lemma SoundByProduction(g: Grammar, m: Rel, p: nat, i: nat)
    requires ProperGrammar(g) && RelSound(g, m) && p < |g.prods| && OneLeft(m, g.prods[p], i)
    ensures RelSound(g, m + {(g.prods[p].lhs, g.prods[p].rhs[i].n)})
  {
    assert ProperProduction(g, g.prods[p]);
    OneLeftIsUnitStep(g, m, p, i);
    assert UnitStep(g, g.prods[p].lhs, g.prods[p].rhs[i].n);
    DerivesOne(g, g.prods[p].lhs, g.prods[p].rhs[i].n);
  }

  lemma SoundByEmpty(g: Grammar, m: Rel, p: nat)
    requires ProperGrammar(g) && RelSound(g, m) && p < |g.prods| && g.prods[p].rhs == []
    ensures RelSound(g, m + {(g.prods[p].lhs, EMPTY)})
  {
    assert ProperProduction(g, g.prods[p]);
    NullableBy(g, p);
  }

  lemma SoundByClosure(g: Grammar, m: Rel, u: nat, v: nat, w: nat)
    requires RelSound(g, m) && u != EMPTY && v != w && (u, v) in m && (v, w) in m
    ensures RelSound(g, m + {(u, w)})
  {
    if v != EMPTY {
      TrulyTrans(g, u, v, w);
    }
  }

  /** A settled matrix knows every symbol that vanishes. */
  lemma {:induction false} SettledNullable(g: Grammar, m: Rel, tree: Tree, a: nat)
    requires ProperGrammar(g) && Settled(g, m)
    requires Plain(tree) && Produces(g, tree, N(a)) && Yield(tree) == []
    ensures (a, EMPTY) in m
    decreases tree
  {
    var prod := g.prods[tree.prod];
    assert ProperProduction(g, prod) && ProductionSettled(m, prod);
    SettledNullableAll(g, m, tree.kids, prod.rhs);
    if prod.rhs != [] {
      assert Vanishes(m, prod.rhs[0]);
      assert OneLeft(m, prod, 0);
      assert StepClosed(m, a, prod.rhs[0].n, EMPTY);
    }
  }

  lemma {:induction false} SettledNullableAll(g: Grammar, m: Rel, f: Forest, xs: seq<Symbol>)
    requires ProperGrammar(g) && Settled(g, m)
    requires PlainAll(f) && ProducesAll(g, f, xs) && Yields(f) == []
    ensures forall i :: 0 <= i < |xs| ==> Vanishes(m, xs[i])
    decreases f
  {
    match f
    case Nil =>
    case Cons(head, tail) =>
      assert Yield(head) == [] && Yields(tail) == [];
      assert head.Node?;
      SettledNullable(g, m, head, xs[0].n);
      SettledNullableAll(g, m, tail, xs[1..]);
      forall i | 0 <= i < |xs| ensures Vanishes(m, xs[i]) {
        if i > 0 {
          assert xs[i] == xs[1..][i - 1];
        }
      }
  }

  lemma {:induction false} SettledChain(g: Grammar, m: Rel, chain: seq<nat>)
    requires ProperGrammar(g) && Settled(g, m) && UnitChain(g, chain)
    requires chain[0] < g.numNonterms && chain[0] != EMPTY
    ensures (chain[0], chain[|chain| - 1]) in m
    decreases |chain|
  {
    var k := |chain| - 1;
    if k > 0 {
      SettledChain(g, m, chain[..k]);
      assert UnitStep(g, chain[k - 1], chain[k]);
      var p: nat, i: nat :| UnitStepBy(g, chain[k - 1], chain[k], p, i);
      var rhs := g.prods[p].rhs;
      forall j | 0 <= j < |rhs| && j != i ensures Vanishes(m, rhs[j]) {
        assert Nullable(g, g.prods[p].rhs[j]);
        var tree :| Plain(tree) && Produces(g, tree, rhs[j]) && Yield(tree) == [];
        assert tree.Node?;
        SettledNullable(g, m, tree, rhs[j].n);
      }
      assert OneLeft(m, g.prods[p], i) && ProductionSettled(m, g.prods[p]);
      assert StepClosed(m, chain[0], chain[k - 1], chain[k]);
    }
  }

  /** A matrix in which nothing is left to discover contains the whole relation. */
  lemma SettledIsComplete(g: Grammar, m: Rel)
    requires ProperGrammar(g) && Settled(g, m)
    ensures RelComplete(g, m)
  {
    forall a: nat, b: nat | a < g.numNonterms && b < g.numNonterms && TrulyDerives(g, a, b) ensures (a, b) in m {
      if b == EMPTY {
        if a != EMPTY {
          var tree :| Plain(tree) && Produces(g, tree, N(a)) && Yield(tree) == [];
          SettledNullable(g, m, tree, a);
        }
      } else {
        var chain :| UnitChain(g, chain) && chain[0] == a && chain[|chain| - 1] == b;
        if a == EMPTY {
          EmptyGoesNowhere(g, chain);
        } else {
          SettledChain(g, m, chain);
        }
      }
    }
  }

  lemma EmptyGoesNowhere(g: Grammar, chain: seq<nat>)
    requires ProperGrammar(g) && UnitChain(g, chain) && chain[0] == EMPTY
    ensures |chain| == 1
  {
    if |chain| > 1 {
      FirstStep(g, chain);
      NoStepFromEmpty(g, chain[1]);
    }
  }

  lemma FirstStep(g: Grammar, chain: seq<nat>)
    requires UnitChain(g, chain) && |chain| > 1
    ensures UnitStep(g, chain[0], chain[1])
  {
  }

  lemma NoStepFromEmpty(g: Grammar, b: nat)
    requires ProperGrammar(g)
    ensures !UnitStep(g, EMPTY, b)
  {
    forall p: nat, i: nat ensures !UnitStepBy(g, EMPTY, b, p, i) {
      if p < |g.prods| {
        assert ProperProduction(g, g.prods[p]);
      }
    }
  }
}
