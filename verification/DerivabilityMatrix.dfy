/** The matrix that the grammar analysis fills in place, and exactly when its loop stops too early. */
module DerivabilityMatrix {
  import opened Grammars
  import opened Derivability

  /** Some other nonterminal and `a` derive each other. */
  ghost predicate Mutual(m: Rel, a: nat) {
    exists b: nat :: b != a && (a, b) in m && (b, a) in m
  }

  ghost predicate EdgeClosed(m: Rel, u: nat, v: nat) {
    forall w: nat :: StepClosed(m, u, v, w)
  }

  ghost predicate FromClosed(m: Rel, u: nat) {
    forall v: nat :: EdgeClosed(m, u, v)
  }

  ghost predicate PairsClosed(m: Rel) {
    forall u: nat :: FromClosed(m, u)
  }

  /** The diagonal, together with the empty productions among the first `k`. */
  ghost function Direct(g: Grammar, k: nat): Rel
    requires k <= |g.prods|
  {
    (set a: nat | a < g.numNonterms :: (a, a)) + (set q: nat | q < k && g.prods[q].rhs == [] :: (g.prods[q].lhs, EMPTY))
  }

  /** The matrix shows that `prod` derives its symbol `i` alone, and does not have that entry yet. */
  ghost predicate News(m: Rel, prod: Production, i: nat) {
    OneLeft(m, prod, i) && (prod.lhs, prod.rhs[i].n) !in m
  }

  /** A non-empty production tells nothing that `m` does not know. */
  ghost predicate NoNews(m: Rel, prod: Production) {
    prod.rhs != [] ==> ProductionSettled(m, prod)
  }

  /** The first sweep learns nothing from a non-empty production, because the empty productions it
      depends on are listed after it, or because there is nothing to learn. */
  ghost predicate QuietSweep(g: Grammar, k: nat)
    requires k <= |g.prods|
  {
    forall p: nat :: p < k ==> NoNews(Direct(g, p), g.prods[p])
  }

  /** With the additions `A => empty` not counted as changes, the loop leaves a derivation undiscovered. */
  ghost predicate StopsEarly(g: Grammar) {
    && QuietSweep(g, |g.prods|)
    && exists p: nat :: p < |g.prods| && !NoNews(Direct(g, |g.prods|), g.prods[p])
  }

  lemma DirectStep(g: Grammar, k: nat)
    requires k < |g.prods|
    ensures Direct(g, k + 1) == Direct(g, k) + if g.prods[k].rhs == [] then {(g.prods[k].lhs, EMPTY)} else {}
    ensures QuietSweep(g, k + 1) <==> QuietSweep(g, k) && NoNews(Direct(g, k), g.prods[k])
  {
    DirectNext(g, k);
    QuietNext(g, k);
  }

  lemma DirectNext(g: Grammar, k: nat)
    requires k < |g.prods|
    ensures Direct(g, k + 1) == Direct(g, k) + if g.prods[k].rhs == [] then {(g.prods[k].lhs, EMPTY)} else {}
  {
    var l, r := Direct(g, k + 1), Direct(g, k) + if g.prods[k].rhs == [] then {(g.prods[k].lhs, EMPTY)} else {};
    forall e ensures e in l <==> e in r {
      if g.prods[k].rhs == [] && e == (g.prods[k].lhs, EMPTY) {
        assert k < k + 1;
      }
    }
  }

  lemma QuietNext(g: Grammar, k: nat)
    requires k < |g.prods|
    ensures QuietSweep(g, k + 1) <==> QuietSweep(g, k) && NoNews(Direct(g, k), g.prods[k])
  {
  }

  /** Entries of the first sweep cannot be chained. */
  lemma DirectIsClosed(g: Grammar)
    ensures PairsClosed(Direct(g, |g.prods|))
  {
    forall u: nat, v: nat, w: nat ensures StepClosed(Direct(g, |g.prods|), u, v, w) {
    }
  }

  lemma DirectSettled(g: Grammar)
    requires ProperGrammar(g)
    ensures Settled(g, Direct(g, |g.prods|)) <==>
            forall p: nat :: p < |g.prods| ==> NoNews(Direct(g, |g.prods|), g.prods[p])
  {
    DirectIsClosed(g);
    var m := Direct(g, |g.prods|);
    forall u: nat, v: nat, w: nat ensures StepClosed(m, u, v, w) {
      assert FromClosed(m, u) && EdgeClosed(m, u, v);
    }
    forall p: nat | p < |g.prods| && g.prods[p].rhs == [] ensures ProductionSettled(m, g.prods[p]) {
      assert (g.prods[p].lhs, EMPTY) in m;
    }
  }

  /** What a sweep without changes says, the first one and later ones. */
  ghost predicate Quiet(g: Grammar, countEmpty: bool, first: bool, m: Rel) {
    && Direct(g, 0) <= m && PairsClosed(m)
    && if first && !countEmpty then QuietSweep(g, |g.prods|) && m == Direct(g, |g.prods|)
       else forall p: nat :: p < |g.prods| ==> ProductionSettled(m, g.prods[p])
  }

  lemma QuietMeansSettled(g: Grammar, countEmpty: bool, first: bool, m: Rel)
    requires ProperGrammar(g) && Quiet(g, countEmpty, first, m)
    ensures if first && !countEmpty then Settled(g, m) <==> !StopsEarly(g) else Settled(g, m)
  {
    if first && !countEmpty {
      DirectSettled(g);
    } else {
      forall u: nat, v: nat, w: nat ensures StepClosed(m, u, v, w) {
        assert FromClosed(m, u) && EdgeClosed(m, u, v);
      }
    }
  }

  /** The complete relation is settled, so a sound one that is not settled is incomplete. */
  lemma CompleteIsSettled(g: Grammar, m: Rel)
    requires ProperGrammar(g) && RelSound(g, m) && RelComplete(g, m)
    ensures Settled(g, m)
  {
    forall a: nat | a < g.numNonterms ensures (a, a) in m {
      DerivesRefl(g, a);
      assert TrulyDerives(g, a, a);
    }
    forall p: nat | p < |g.prods| ensures ProductionSettled(m, g.prods[p]) {
      var prod := g.prods[p];
      assert ProperProduction(g, prod);
      if prod.rhs == [] {
        NullableBy(g, p);
        assert TrulyDerives(g, prod.lhs, EMPTY);
      }
      forall i: nat | OneLeft(m, prod, i) ensures (prod.lhs, prod.rhs[i].n) in m {
        OneLeftIsUnitStep(g, m, p, i);
        assert UnitStep(g, prod.lhs, prod.rhs[i].n);
        DerivesOne(g, prod.lhs, prod.rhs[i].n);
        assert TrulyDerives(g, prod.lhs, prod.rhs[i].n);
      }
    }
    forall u: nat, v: nat, w: nat ensures StepClosed(m, u, v, w) {
      if u != EMPTY && u != v && v != w && (u, v) in m && (v, w) in m {
        SoundByClosure(g, m, u, v, w);
        assert (u, w) in m + {(u, w)};
      }
    }
  }

  lemma DirectGrows(g: Grammar, j: nat, k: nat)
    requires j <= k <= |g.prods|
    ensures Direct(g, j) <= Direct(g, k)
  {
  }

  lemma MutualGrows(m: Rel, m': Rel)
    requires m <= m'
    ensures forall a: nat :: Mutual(m, a) ==> Mutual(m', a)
  {
  }

  lemma EmptyNotMutual(g: Grammar, m: Rel)
    requires RelSound(g, m)
    ensures !Mutual(m, EMPTY)
  {
  }

  /** Once a symbol does not vanish, no later symbol can be left alone. */
  lemma NoneBeyond(m: Rel, prod: Production, i: nat)
    requires i < |prod.rhs| && !Vanishes(m, prod.rhs[i])
    ensures forall j: nat :: News(m, prod, j) ==> j == i
  {
  }

  lemma SettledOrNews(m: Rel, prod: Production)
    requires prod.rhs != []
    ensures ProductionSettled(m, prod) <==> forall i: nat :: !News(m, prod, i)
  {
    forall i: nat ensures OneLeft(m, prod, i) ==> News(m, prod, i) || (prod.lhs, prod.rhs[i].n) in m {
    }
  }

  /** What the loop over the productions knows after the first `p` of them. */
  ghost predicate Sweep(g: Grammar, countEmpty: bool, first: bool, m0: Rel, m: Rel, p: nat, changes: nat) {
    && p <= |g.prods| && m0 <= m && Direct(g, p) <= m
    && (!first ==> Direct(g, |g.prods|) <= m0)
    && (changes == 0 && (countEmpty || !first) ==>
          m0 == m && forall q: nat :: q < p ==> ProductionSettled(m0, g.prods[q]))
    && (changes > 0 ==> m0 < m)
    && (first && !countEmpty ==> (changes == 0 <==> QuietSweep(g, p)) && (changes == 0 ==> m == Direct(g, p)))
  }

  lemma SweepStep(g: Grammar, countEmpty: bool, first: bool, m0: Rel, m: Rel, m': Rel, p: nat, changes: nat, n: nat)
    requires p < |g.prods| && Sweep(g, countEmpty, first, m0, m, p, changes) && m <= m'
    requires g.prods[p].rhs == [] ==> m' == m + {(g.prods[p].lhs, EMPTY)}
    requires n == 0 && (g.prods[p].rhs != [] || countEmpty) ==> m' == m
    requires n == 0 <==> if countEmpty then ProductionSettled(m, g.prods[p]) else NoNews(m, g.prods[p])
    requires n > 0 ==> m < m'
    ensures Sweep(g, countEmpty, first, m0, m', p + 1, changes + n)
  {
    if first {
      DirectStep(g, p);
    } else {
      LaterSweepStep(g, countEmpty, m0, m, m', p, changes, n);
    }
  }

  /** In a later sweep the direct entries are there already. */
  lemma LaterSweepStep(g: Grammar, countEmpty: bool, m0: Rel, m: Rel, m': Rel, p: nat, changes: nat, n: nat)
    requires p < |g.prods| && Sweep(g, countEmpty, false, m0, m, p, changes) && m <= m'
    requires g.prods[p].rhs == [] ==> m' == m + {(g.prods[p].lhs, EMPTY)}
    requires n == 0 && (g.prods[p].rhs != [] || countEmpty) ==> m' == m
    requires n == 0 <==> if countEmpty then ProductionSettled(m, g.prods[p]) else NoNews(m, g.prods[p])
    requires n > 0 ==> m < m'
    ensures Sweep(g, countEmpty, false, m0, m', p + 1, changes + n)
  {
    DirectStep(g, p);
    DirectGrows(g, p + 1, |g.prods|);
  }

  ghost function Entries(derivable: array2<bool>): Rel
    reads derivable
  {
    set a: nat, b: nat | a < derivable.Length0 && b < derivable.Length1 && derivable[a, b] :: (a, b)
  }

  ghost predicate ClosedUpTo(m: Rel, u: nat) {
    forall x: nat :: x < u ==> FromClosed(m, x)
  }

  lemma ClosedUpToNext(m: Rel, u: nat)
    ensures ClosedUpTo(m, u + 1) <==> ClosedUpTo(m, u) && FromClosed(m, u)
  {
  }

  lemma ClosedInRange(g: Grammar, m: Rel)
    requires RelSound(g, m)
    ensures ClosedUpTo(m, g.numNonterms) <==> PairsClosed(m)
  {
    forall x: nat | x >= g.numNonterms ensures FromClosed(m, x) {
      forall v: nat, w: nat ensures StepClosed(m, x, v, w) {
      }
    }
  }

  /** The edges from `u` to the nonterminals below `v` have been closed. */
  ghost predicate ClosedEdges(m0: Rel, m: Rel, u: nat, v: nat, changes: nat) {
    && m0 <= m && (changes == 0 <==> m0 == m)
    && (changes == 0 ==> forall x: nat :: x < v ==> EdgeClosed(m0, u, x))
    && (changes > 0 ==> !FromClosed(m0, u))
  }

  lemma NoEdge(m0: Rel, m: Rel, u: nat, v: nat, changes: nat)
    requires ClosedEdges(m0, m, u, v, changes) && (u == v || (u, v) !in m)
    ensures ClosedEdges(m0, m, u, v + 1, changes)
  {
    assert changes == 0 ==> EdgeClosed(m0, u, v);
  }

  lemma NextEdge(m0: Rel, m: Rel, m': Rel, u: nat, v: nat, changes: nat, n: nat)
    requires ClosedEdges(m0, m, u, v, changes) && m <= m'
    requires (n == 0 <==> EdgeClosed(m, u, v)) && (n == 0 <==> m == m')
    ensures ClosedEdges(m0, m', u, v + 1, changes + n)
  {
    if changes == 0 && n > 0 {
      assert !EdgeClosed(m0, u, v);
    }
  }

  lemma AllEdges(g: Grammar, m0: Rel, m: Rel, u: nat, changes: nat)
    requires ClosedEdges(m0, m, u, g.numNonterms, changes) && RelSound(g, m0)
    ensures changes == 0 <==> FromClosed(m0, u)
  {
    forall v: nat | v >= g.numNonterms ensures EdgeClosed(m0, u, v) {
      forall w: nat ensures StepClosed(m0, u, v, w) {
      }
    }
  }

  class Analysis {
    const g: Grammar
    const derivable: array2<bool>
    const cyclic: array<bool>

    ghost predicate Valid()
      reads this
    {
      && ProperGrammar(g)
      && derivable.Length0 == derivable.Length1 == cyclic.Length == g.numNonterms
    }

    ghost function Marked(): Rel
      reads this, derivable
    {
      Entries(derivable)
    }

    ghost predicate FlagsSound(m: Rel)
      reads this, cyclic
    {
      forall a: nat :: a < cyclic.Length && cyclic[a] ==> Mutual(m, a)
    }

    twostate predicate FlagsKept()
      reads this, cyclic
    {
      forall a: nat :: a < cyclic.Length && old(cyclic[a]) ==> cyclic[a]
    }

    /** Initially every nonterminal derives itself, and nothing is known to be cyclic. */
    constructor (g: Grammar)
      requires ProperGrammar(g)
      ensures Valid() && this.g == g && fresh(derivable) && fresh(cyclic)
      ensures Marked() == Direct(g, 0) && FlagsSound(Marked())
    {
      this.g := g;
      derivable := new bool[g.numNonterms, g.numNonterms]((i, j) => i == j);
      cyclic := new bool[g.numNonterms](i => false);
    }

    /** Sets a bit; the result says whether it was clear. */
    method AddDerivable(left: nat, right: nat) returns (changed: bool)
      requires Valid() && left < g.numNonterms && right < g.numNonterms
      modifies derivable, cyclic
      ensures changed <==> (left, right) !in old(Marked())
      ensures Marked() == old(Marked()) + {(left, right)}
      ensures cyclic[..] == if left == right then old(cyclic[..])[left := true] else old(cyclic[..])
    {
      if left == right {
        cyclic[left] := true;
      }
      changed := !derivable[left, right];
      derivable[left, right] := true;
    }

    method AllVanish(rhs: seq<Symbol>, i: nat) returns (yes: bool)
      requires Valid() && i <= |rhs|
      requires forall k :: 0 <= k < |rhs| && rhs[k].N? ==> rhs[k].n < g.numNonterms
      ensures yes <==> forall k :: i <= k < |rhs| ==> Vanishes(Marked(), rhs[k])
    {
      for k := i to |rhs|
        invariant forall j :: i <= j < k ==> Vanishes(Marked(), rhs[j])
      {
        if rhs[k].T? || !derivable[rhs[k].n, EMPTY] {
          assert !Vanishes(Marked(), rhs[k]);
          return false;
        }
      }
      return true;
    }

    /** One more derivation by production `p`, whose neighbours of symbol `i` all vanish. */
    method AddByProduction(p: nat, i: nat)
      requires Valid() && p < |g.prods| && RelSound(g, Marked()) && OneLeft(Marked(), g.prods[p], i)
      requires g.prods[p].lhs != g.prods[p].rhs[i].n < g.numNonterms && g.prods[p].lhs < g.numNonterms
      requires (g.prods[p].lhs, g.prods[p].rhs[i].n) !in Marked()
      modifies derivable, cyclic
      ensures RelSound(g, Marked()) && cyclic[..] == old(cyclic[..])
      ensures Marked() == old(Marked()) + {(g.prods[p].lhs, g.prods[p].rhs[i].n)}
    {
      SoundByProduction(g, Marked(), p, i);
      var chgd := AddDerivable(g.prods[p].lhs, g.prods[p].rhs[i].n);
      assert chgd;
    }

    /** Symbol `i` of a production, when everything before it vanishes. */
    method ScanSymbol(p: nat, i: nat) returns (n: nat)
      requires Valid() && p < |g.prods| && i < |g.prods[p].rhs| && g.prods[p].rhs[i].N?
      requires RelSound(g, Marked()) && Direct(g, 0) <= Marked()
      requires forall j :: 0 <= j < i ==> Vanishes(Marked(), g.prods[p].rhs[j])
      modifies derivable, cyclic
      ensures RelSound(g, Marked()) && cyclic[..] == old(cyclic[..])
      ensures n > 0 <==> News(old(Marked()), g.prods[p], i)
      ensures Marked() == old(Marked()) + if n > 0 then {(g.prods[p].lhs, g.prods[p].rhs[i].n)} else {}
    {
      n := 0;
      var prod := g.prods[p];
      assert ProperProduction(g, prod);
      var b := prod.rhs[i].n;
      if !derivable[prod.lhs, b] {
        var rest := AllVanish(prod.rhs, i + 1);
        if rest {
          assert (b, b) in Direct(g, 0);
          AddByProduction(p, i);
          n := 1;
        }
      }
    }

    /** One production: the left side derives each nonterminal whose neighbours all vanish. */
    method ScanProduction(p: nat) returns (changes: nat)
      requires Valid() && p < |g.prods| && g.prods[p].rhs != [] && RelSound(g, Marked()) && Direct(g, 0) <= Marked()
      modifies derivable, cyclic
      ensures RelSound(g, Marked()) && old(Marked()) <= Marked() && cyclic[..] == old(cyclic[..])
      ensures changes == 0 <==> forall i: nat :: !News(old(Marked()), g.prods[p], i)
      ensures changes == 0 <==> old(Marked()) == Marked()
    {
      changes := 0;
      var prod := g.prods[p];
      ghost var m0 := Marked();
      ghost var m := m0;
      assert ProperProduction(g, prod);
      var i := 0;
      while i < |prod.rhs|
        invariant 0 <= i <= |prod.rhs| && Marked() == m && cyclic[..] == old(cyclic[..])
        invariant RelSound(g, m) && m0 <= m && (changes == 0 <==> m0 == m)
        invariant forall j :: 0 <= j < i ==> Vanishes(m, prod.rhs[j])
        invariant changes == 0 ==> forall j: nat :: j < i ==> !News(m0, prod, j)
        invariant changes > 0 ==> exists j: nat :: News(m0, prod, j)
      {
        if prod.rhs[i].T? {
          NoneBeyond(m, prod, i);
          break;
        }
        var n := ScanSymbol(p, i);
        changes := changes + n;
        m := Marked();
        if !derivable[prod.rhs[i].n, EMPTY] {
          NoneBeyond(m, prod, i);
          break;
        }
        i := i + 1;
      }
    }

    /** Loop over all productions. With `countEmpty` false, as the code stands, an addition for an
        empty production does not count as a change. */
    method ScanProductions(countEmpty: bool, ghost first: bool) returns (changes: nat)
      requires Valid() && RelSound(g, Marked()) && FlagsSound(Marked()) && Direct(g, 0) <= Marked()
      requires if first then Marked() == Direct(g, 0) else Direct(g, |g.prods|) <= Marked()
      modifies derivable, cyclic
      ensures RelSound(g, Marked()) && old(Marked()) <= Marked() && FlagsSound(Marked())
      ensures Direct(g, |g.prods|) <= Marked()
      ensures changes == 0 && (countEmpty || !first) ==>
                Marked() == old(Marked()) && forall p: nat :: p < |g.prods| ==> ProductionSettled(Marked(), g.prods[p])
      ensures changes > 0 ==> old(Marked()) < Marked()
      ensures first && !countEmpty ==>
                (changes == 0 <==> QuietSweep(g, |g.prods|)) && (changes == 0 ==> Marked() == Direct(g, |g.prods|))
    {
      changes := 0;
      ghost var m0 := Marked();
      ghost var m := m0;
      for p := 0 to |g.prods|
        invariant Marked() == m && FlagsSound(m) && RelSound(g, m)
        invariant Sweep(g, countEmpty, first, m0, m, p, changes)
      {
        var n := ScanOne(countEmpty, p);
        SweepStep(g, countEmpty, first, m0, m, Marked(), p, changes, n);
        changes := changes + n;
        m := Marked();
      }
    }

    /** An empty production makes its left side vanish; any other is scanned. */
    method ScanOne(countEmpty: bool, p: nat) returns (changes: nat)
      requires Valid() && p < |g.prods| && RelSound(g, Marked()) && FlagsSound(Marked()) && Direct(g, p) <= Marked()
      modifies derivable, cyclic
      ensures RelSound(g, Marked()) && old(Marked()) <= Marked() && FlagsSound(Marked())
      ensures g.prods[p].rhs == [] ==> Marked() == old(Marked()) + {(g.prods[p].lhs, EMPTY)}
      ensures changes == 0 && (g.prods[p].rhs != [] || countEmpty) ==> Marked() == old(Marked())
      ensures changes == 0 <==> if countEmpty then ProductionSettled(old(Marked()), g.prods[p])
                else NoNews(old(Marked()), g.prods[p])
      ensures changes > 0 ==> old(Marked()) < Marked()
    {
      ghost var m := Marked();
      DirectGrows(g, 0, p);
      assert ProperProduction(g, g.prods[p]);
      changes := 0;
      if g.prods[p].rhs == [] {
        SoundByEmpty(g, m, p);
        var added := AddDerivable(g.prods[p].lhs, EMPTY);
        if added && countEmpty {
          changes := 1;
        }
      } else {
        changes := ScanProduction(p);
        SettledOrNews(m, g.prods[p]);
      }
      MutualGrows(m, Marked());
    }

    /** The path from `u` over `v` to `w`. */
    method CloseTriple(u: nat, v: nat, w: nat) returns (added: bool)
      requires Valid() && RelSound(g, Marked()) && FlagsSound(Marked())
      requires EMPTY < u < g.numNonterms && v < g.numNonterms && w < g.numNonterms
      requires u != v && v != w && (u, v) in Marked() && (v, w) in Marked()
      modifies derivable, cyclic
      ensures RelSound(g, Marked()) && Marked() == old(Marked()) + {(u, w)}
      ensures FlagsSound(Marked()) && FlagsKept() && (u == w ==> cyclic[u])
      ensures added <==> (u, w) !in old(Marked())
    {
      ghost var m := Marked();
      SoundByClosure(g, m, u, v, w);
      MutualGrows(m, m + {(u, w)});
      added := AddDerivable(u, w);
    }

    /** All edges out of `v`, for an edge from `u` to `v`. */
    method CloseEdge(u: nat, v: nat) returns (changes: nat)
      requires Valid() && RelSound(g, Marked()) && FlagsSound(Marked())
      requires EMPTY < u < g.numNonterms && v < g.numNonterms && u != v && (u, v) in Marked()
      modifies derivable, cyclic
      ensures RelSound(g, Marked()) && old(Marked()) <= Marked() && FlagsSound(Marked()) && FlagsKept()
      ensures changes == 0 <==> EdgeClosed(old(Marked()), u, v)
      ensures changes == 0 <==> old(Marked()) == Marked()
      ensures (v, u) in old(Marked()) ==> cyclic[u]
    {
      changes := 0;
      ghost var m0 := Marked();
      ghost var m := m0;
      for w := 0 to g.numNonterms
        invariant Marked() == m && FlagsSound(m) && RelSound(g, m) && m0 <= m
        invariant changes == 0 <==> m0 == m
        invariant changes == 0 ==> forall x: nat :: x < w ==> StepClosed(m0, u, v, x)
        invariant changes > 0 ==> !EdgeClosed(m0, u, v)
        invariant FlagsKept() && ((v, u) in m0 && u < w ==> cyclic[u])
      {
        if v == w || !derivable[v, w] {
          continue;
        }
        var added := CloseTriple(u, v, w);
        assert changes == 0 && added ==> !StepClosed(m0, u, v, w);
        m := m + {(u, w)};
        if added {
          changes := changes + 1;
        }
      }
    }

    method CloseFrom(u: nat) returns (changes: nat)
      requires Valid() && RelSound(g, Marked()) && FlagsSound(Marked()) && EMPTY < u < g.numNonterms
      modifies derivable, cyclic
      ensures RelSound(g, Marked()) && old(Marked()) <= Marked() && FlagsSound(Marked()) && FlagsKept()
      ensures changes == 0 <==> FromClosed(old(Marked()), u)
      ensures changes == 0 <==> old(Marked()) == Marked()
      ensures Mutual(old(Marked()), u) ==> cyclic[u]
    {
      changes := 0;
      ghost var m0 := Marked();
      for v := 0 to g.numNonterms
        invariant FlagsSound(Marked()) && RelSound(g, Marked()) && ClosedEdges(m0, Marked(), u, v, changes)
        invariant FlagsKept() && forall b: nat :: b < v && b != u && (u, b) in m0 && (b, u) in m0 ==> cyclic[u]
      {
        ghost var m := Marked();
        if u == v || !derivable[u, v] {
          NoEdge(m0, m, u, v, changes);
          continue;
        }
        var n := CloseEdge(u, v);
        NextEdge(m0, m, Marked(), u, v, changes, n);
        changes := changes + n;
      }
      AllEdges(g, m0, Marked(), u, changes);
    }

    /** R + R*R, in place, over the edges that are not loops. */
    method CloseStep() returns (changes: nat)
      requires Valid() && RelSound(g, Marked()) && FlagsSound(Marked())
      modifies derivable, cyclic
      ensures RelSound(g, Marked()) && old(Marked()) <= Marked() && FlagsSound(Marked())
      ensures changes == 0 <==> PairsClosed(old(Marked()))
      ensures changes == 0 <==> old(Marked()) == Marked()
      ensures forall a: nat :: a < cyclic.Length && Mutual(old(Marked()), a) ==> cyclic[a]
    {
      ghost var m0 := Marked();
      EmptyNotMutual(g, m0);
      changes := 0;
      for u := 1 to g.numNonterms
        invariant RelSound(g, Marked()) && m0 <= Marked() && FlagsSound(Marked()) && FlaggedUpTo(m0, u)
        invariant (changes == 0 <==> m0 == Marked()) && (changes == 0 <==> ClosedUpTo(m0, u))
      {
        var n := CloseRow(u, m0);
        ClosedUpToNext(m0, u);
        changes := changes + n;
      }
      ClosedInRange(g, m0);
    }

    /** One row; what was found before stays. */
    method CloseRow(u: nat, ghost m0: Rel) returns (changes: nat)
      requires Valid() && RelSound(g, Marked()) && FlagsSound(Marked()) && EMPTY < u < g.numNonterms
      requires m0 <= Marked() && FlaggedUpTo(m0, u)
      modifies derivable, cyclic
      ensures RelSound(g, Marked()) && old(Marked()) <= Marked() && FlagsSound(Marked()) && FlaggedUpTo(m0, u + 1)
      ensures changes == 0 <==> FromClosed(old(Marked()), u)
      ensures changes == 0 <==> old(Marked()) == Marked()
    {
      MutualGrows(m0, Marked());
      changes := CloseFrom(u);
    }

    ghost predicate FlaggedUpTo(m: Rel, u: nat)
      reads this, cyclic
    {
      forall a: nat :: a < u && a < cyclic.Length && Mutual(m, a) ==> cyclic[a]
    }

    /** Alternate the two parts until a sweep makes no change. */
    method ComputeWhatCanDeriveWhat(countEmpty: bool)
      requires Valid() && Marked() == Direct(g, 0) && FlagsSound(Marked())
      modifies derivable, cyclic
      ensures RelSound(g, Marked()) && Direct(g, |g.prods|) <= Marked() && PairsClosed(Marked())
      ensures Settled(g, Marked()) <==> countEmpty || !StopsEarly(g)
      ensures RelComplete(g, Marked()) <==> countEmpty || !StopsEarly(g)
      ensures forall a: nat :: a < g.numNonterms ==> (cyclic[a] <==> Mutual(Marked(), a))
    {
      StartSound(g);
      ghost var first := true;
      while true
        invariant RelSound(g, Marked()) && FlagsSound(Marked()) && Direct(g, 0) <= Marked()
        invariant if first then Marked() == Direct(g, 0) else Direct(g, |g.prods|) <= Marked()
        invariant !first && !countEmpty ==> !QuietSweep(g, |g.prods|)
        decreases (set a: nat, b: nat | a < g.numNonterms && b < g.numNonterms :: (a, b)) - Marked()
      {
        ghost var m0 := Marked();
        var n1 := ScanProductions(countEmpty, first);
        DirectIsClosed(g);
        var n2 := CloseStep();
        if n1 + n2 == 0 {
          QuietMeansSettled(g, countEmpty, first, Marked());
          break;
        }
        first := false;
      }
      SettledOrIncomplete(g, Marked());
    }
  }

  lemma SettledOrIncomplete(g: Grammar, m: Rel)
    requires ProperGrammar(g) && RelSound(g, m)
    ensures Settled(g, m) <==> RelComplete(g, m)
  {
    if Settled(g, m) {
      SettledIsComplete(g, m);
    }
    if RelComplete(g, m) {
      CompleteIsSettled(g, m);
    }
  }

  lemma StartSound(g: Grammar)
    requires ProperGrammar(g)
    ensures RelSound(g, Direct(g, 0))
  {
    forall a: nat | a < g.numNonterms ensures DerivesAlone(g, a, a) {
      DerivesRefl(g, a);
    }
  }

  // ---------------------------------------------------------------- what the result is worth

  /** `S -> B B; B -> empty`, in that order, under a start production. */
  const EARLY := Grammar(1, 4, [Production(1, [N(2), T(0)]), Production(2, [N(3), N(3)]), Production(3, [])])

  /** As written, the analysis misses that S derives B alone in this grammar. */
  lemma EarlyStop()
    ensures ProperGrammar(EARLY) && StopsEarly(EARLY) && UnitStep(EARLY, 2, 3)
  {
    var prods := EARLY.prods;
    forall p: nat | p < |prods| ensures ProperProduction(EARLY, prods[p]) && NoNews(Direct(EARLY, p), prods[p]) {
      forall i: nat ensures !News(Direct(EARLY, p), prods[p], i) {
        if p == 0 && i < 2 {
          assert !Vanishes(Direct(EARLY, p), prods[p].rhs[1 - i]);
        } else if p == 1 && i < 2 {
          assert (3, EMPTY) !in Direct(EARLY, 1);
          assert !Vanishes(Direct(EARLY, p), prods[p].rhs[1 - i]);
        }
      }
      if prods[p].rhs != [] {
        SettledOrNews(Direct(EARLY, p), prods[p]);
      }
    }
    assert prods[2].rhs == [] && (3, EMPTY) in Direct(EARLY, 3);
    assert OneLeft(Direct(EARLY, 3), prods[1], 0) && (2, 3) !in Direct(EARLY, 3);
    assert !NoNews(Direct(EARLY, 3), prods[1]);
    NullableBy(EARLY, 2);
    assert UnitStepBy(EARLY, 2, 3, 1, 0);
  }

  /** The flags miss exactly the nonterminals whose only cycle is a direct one. */
  lemma FlagsAndCycles(g: Grammar, m: Rel, a: nat)
    requires ProperGrammar(g) && RelSound(g, m) && RelComplete(g, m) && a < g.numNonterms
    ensures Cyclic(g, a) <==> Mutual(m, a) || UnitStep(g, a, a)
  {
    if Cyclic(g, a) {
      var b: nat :| UnitStep(g, a, b) && DerivesAlone(g, b, a);
      StepStaysProper(g, a, b);
      DerivesOne(g, a, b);
      assert TrulyDerives(g, a, b) && TrulyDerives(g, b, a);
    }
    if Mutual(m, a) {
      var b: nat :| b != a && (a, b) in m && (b, a) in m;
      assert TrulyDerives(g, a, b) && TrulyDerives(g, b, a);
      var chain :| UnitChain(g, chain) && chain[0] == a && chain[|chain| - 1] == b;
      ChainTail(g, chain);
      DerivesTrans(g, chain[1], b, a);
    }
    if UnitStep(g, a, a) {
      DerivesRefl(g, a);
    }
  }

  lemma StepStaysProper(g: Grammar, a: nat, b: nat)
    requires ProperGrammar(g) && UnitStep(g, a, b)
    ensures EMPTY < a < g.numNonterms && EMPTY < b < g.numNonterms
  {
    var p: nat, i: nat :| UnitStepBy(g, a, b, p, i);
    assert ProperProduction(g, g.prods[p]);
  }

  lemma ChainTail(g: Grammar, chain: seq<nat>)
    requires UnitChain(g, chain) && |chain| > 1
    ensures UnitStep(g, chain[0], chain[1]) && DerivesAlone(g, chain[1], chain[|chain| - 1])
  {
    var rest := chain[1..];
    assert UnitChain(g, rest) && rest[0] == chain[1] && rest[|rest| - 1] == chain[|chain| - 1];
  }
}
