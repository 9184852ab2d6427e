/** First sets of nonterminals, productions and dotted productions, kept in terminal bitmaps. */
module FirstSets {
  import opened Grammars
  import opened Derivability
  import opened Rewriting
  import opened TerminalSets

  ghost predicate ProperTerminals(g: Grammar) {
    forall p: nat, i: nat :: p < |g.prods| && i < |g.prods[p].rhs| && g.prods[p].rhs[i].T? ==>
      g.prods[p].rhs[i].t < g.numTerms
  }

  /** What is known about vanishing is true. */
  ghost predicate NullSound(g: Grammar, Z: set<nat>) {
    forall a: nat :: a in Z ==> Nullable(g, N(a))
  }

  /** Everything that vanishes is known to. */
  ghost predicate NullComplete(g: Grammar, Z: set<nat>) {
    forall a: nat :: EMPTY < a < g.numNonterms && Nullable(g, N(a)) ==> a in Z
  }

  /** First of the symbols from position `i` on, if `F` were the First sets of the nonterminals and `Z` the
      nonterminals that vanish. */
  ghost function SeqFirst(g: Grammar, Z: set<nat>, F: seq<set<nat>>, xs: seq<Symbol>, i: nat): set<nat>
    requires i <= |xs| && forall j :: 0 <= j < |xs| && xs[j].N? ==> xs[j].n < |F|
    decreases |xs| - i
  {
    if i == |xs| then {} else
    match xs[i]
    case T(t) => {t}
    case N(a) => F[a] + if a in Z then SeqFirst(g, Z, F, xs, i + 1) else {}
  }

  ghost predicate FirstsSound(g: Grammar, F: seq<set<nat>>) {
    forall a: nat, t :: a < |F| && t in F[a] ==> BeginsAny(g, [N(a)], t)
  }

  ghost predicate FirstsClosed(g: Grammar, Z: set<nat>, F: seq<set<nat>>)
    requires |F| == g.numNonterms && ProperGrammar(g)
  {
    forall p: nat :: p < |g.prods| ==> FirstKnown(g, Z, F, p)
  }

  ghost predicate FirstKnown(g: Grammar, Z: set<nat>, F: seq<set<nat>>, p: nat)
    requires |F| == g.numNonterms && ProperGrammar(g) && p < |g.prods|
  {
    assert ProperProduction(g, g.prods[p]);
    SeqFirst(g, Z, F, g.prods[p].rhs, 0) <= F[g.prods[p].lhs]
  }

  /** First(N) = { t | N =>* t alpha } for every nonterminal. */
  ghost predicate FirstsExact(g: Grammar, F: seq<set<nat>>) {
    forall a: nat, t: nat :: a < |F| ==> (t in F[a] <==> InFirst(g, [N(a)], t))
  }

  ghost predicate BeginsFrom(g: Grammar, xs: seq<Symbol>, i: nat, t: nat)
    requires i <= |xs|
  {
    BeginsAny(g, xs[i..], t)
  }

  lemma BeginsHere(g: Grammar, xs: seq<Symbol>, i: nat, t: nat, depth: nat)
    requires i < |xs| && Begins(g, xs[i], t, depth)
    ensures BeginsFrom(g, xs, i, t)
  {
    assert BeginsAt(g, xs[i..], t, depth, 0);
  }

  lemma BeginsLater(g: Grammar, xs: seq<Symbol>, i: nat, t: nat)
    requires i < |xs| && Nullable(g, xs[i]) && BeginsFrom(g, xs, i + 1, t)
    ensures BeginsFrom(g, xs, i, t)
  {
    var depth: nat, k: nat :| BeginsAt(g, xs[i + 1..], t, depth, k);
    var before := xs[i..][..k + 1];
    assert before == [xs[i]] + xs[i + 1..][..k];
    assert BeginsAt(g, xs[i..], t, depth, k + 1);
  }

  lemma BeginsOne(g: Grammar, x: Symbol, t: nat) returns (depth: nat)
    requires BeginsAny(g, [x], t)
    ensures Begins(g, x, t, depth)
  {
    var i: nat;
    depth, i :| BeginsAt(g, [x], t, depth, i);
  }

  lemma {:induction false} SeqFirstSound(g: Grammar, Z: set<nat>, F: seq<set<nat>>, xs: seq<Symbol>, i: nat, t: nat)
    requires i <= |xs| && forall j :: 0 <= j < |xs| && xs[j].N? ==> xs[j].n < |F|
    requires NullSound(g, Z) && FirstsSound(g, F) && t in SeqFirst(g, Z, F, xs, i)
    ensures BeginsFrom(g, xs, i, t)
    decreases |xs| - i
  {
    match xs[i]
    case T(u) => BeginsHere(g, xs, i, t, 0);
    case N(a) =>
      if t in F[a] {
        var depth := BeginsOne(g, N(a), t);
        BeginsHere(g, xs, i, t, depth);
      } else {
        SeqFirstSound(g, Z, F, xs, i + 1, t);
        BeginsLater(g, xs, i, t);
      }
  }

  /** What production `p` says about its left-hand side is true. */
  lemma SoundByFirst(g: Grammar, Z: set<nat>, F: seq<set<nat>>, p: nat, t: nat)
    requires ProperGrammar(g) && |F| == g.numNonterms && p < |g.prods| && NullSound(g, Z) && FirstsSound(g, F)
    requires forall j :: 0 <= j < |g.prods[p].rhs| && g.prods[p].rhs[j].N? ==> g.prods[p].rhs[j].n < |F|
    requires t in SeqFirst(g, Z, F, g.prods[p].rhs, 0)
    ensures BeginsAny(g, g.prods[p].rhs, t) && BeginsAny(g, [N(g.prods[p].lhs)], t)
  {
    var rhs := g.prods[p].rhs;
    SeqFirstSound(g, Z, F, rhs, 0, t);
    assert rhs[0..] == rhs;
    var depth: nat, i: nat :| BeginsAt(g, rhs, t, depth, i);
    forall j | 0 <= j < i ensures Nullable(g, rhs[j]) {
      assert rhs[..i][j] == rhs[j];
    }
    assert BeginsBy(g, g.prods[p].lhs, t, depth + 1, p, i);
    assert BeginsAt(g, [N(g.prods[p].lhs)], t, depth + 1, 0);
  }

  /** Sets that no production can add to contain everything. */
  lemma {:induction false} ClosedBegins(g: Grammar, Z: set<nat>, F: seq<set<nat>>, a: nat, t: nat, depth: nat)
    requires ProperGrammar(g) && |F| == g.numNonterms && NullComplete(g, Z) && FirstsClosed(g, Z, F)
    requires a < |F| && Begins(g, N(a), t, depth)
    ensures t in F[a]
    decreases depth
  {
    var p: nat, i: nat :| BeginsBy(g, a, t, depth, p, i);
    var rhs := g.prods[p].rhs;
    assert ProperProduction(g, g.prods[p]) && FirstKnown(g, Z, F, p);
    assert Begins(g, rhs[i], t, depth - 1);
    if rhs[i].N? {
      ClosedBegins(g, Z, F, rhs[i].n, t, depth - 1);
    }
    forall j | 0 <= j < i ensures rhs[j].N? && rhs[j].n in Z {
      TerminalsStay(g, rhs[j]);
    }
    ReachedFirst(g, Z, F, rhs, t, i, 0);
  }

  lemma {:induction false} ReachedFirst(g: Grammar, Z: set<nat>, F: seq<set<nat>>, xs: seq<Symbol>, t: nat, i: nat,
                                        k: nat)
    requires forall j :: 0 <= j < |xs| && xs[j].N? ==> xs[j].n < |F|
    requires k <= i < |xs| && (if xs[i].N? then t in F[xs[i].n] else xs[i].t == t)
    requires forall j :: 0 <= j < i ==> xs[j].N? && xs[j].n in Z
    ensures t in SeqFirst(g, Z, F, xs, k)
    decreases i - k
  {
    if k < i {
      ReachedFirst(g, Z, F, xs, t, i, k + 1);
    }
  }

  lemma TerminalsStay(g: Grammar, x: Symbol)
    requires Nullable(g, x)
    ensures x.N?
  {
  }

  /** Sound sets that are closed are exact, and give exact First sets of strings. */
  lemma ClosedIsExact(g: Grammar, Z: set<nat>, F: seq<set<nat>>)
    requires ProperGrammar(g) && |F| == g.numNonterms && NullComplete(g, Z) && FirstsSound(g, F)
    requires FirstsClosed(g, Z, F)
    ensures FirstsExact(g, F)
  {
    forall a: nat, t: nat | a < |F| ensures t in F[a] <==> InFirst(g, [N(a)], t) {
      FirstMeans(g, [N(a)], t);
      if BeginsAny(g, [N(a)], t) {
        var depth := BeginsOne(g, N(a), t);
        ClosedBegins(g, Z, F, a, t, depth);
      }
    }
  }

  lemma ExactIsSound(g: Grammar, F: seq<set<nat>>)
    requires FirstsExact(g, F)
    ensures FirstsSound(g, F)
  {
    forall a: nat, t | a < |F| && t in F[a] ensures BeginsAny(g, [N(a)], t) {
      FirstMeans(g, [N(a)], t);
    }
  }

  lemma SeqFirstExact(g: Grammar, Z: set<nat>, F: seq<set<nat>>, xs: seq<Symbol>, i: nat, t: nat)
    requires |F| == g.numNonterms && i <= |xs| && forall j :: 0 <= j < |xs| && xs[j].N? ==> EMPTY < xs[j].n < |F|
    requires NullSound(g, Z) && NullComplete(g, Z) && FirstsExact(g, F)
    ensures t in SeqFirst(g, Z, F, xs, i) <==> InFirst(g, xs[i..], t)
  {
    FirstMeans(g, xs[i..], t);
    ExactIsSound(g, F);
    if t in SeqFirst(g, Z, F, xs, i) {
      SeqFirstSound(g, Z, F, xs, i, t);
    }
    if BeginsAny(g, xs[i..], t) {
      SeqFirstComplete(g, Z, F, xs, i, t);
    }
  }

  lemma SeqFirstComplete(g: Grammar, Z: set<nat>, F: seq<set<nat>>, xs: seq<Symbol>, i: nat, t: nat)
    requires |F| == g.numNonterms && i <= |xs| && forall j :: 0 <= j < |xs| && xs[j].N? ==> EMPTY < xs[j].n < |F|
    requires NullComplete(g, Z) && FirstsExact(g, F) && BeginsAny(g, xs[i..], t)
    ensures t in SeqFirst(g, Z, F, xs, i)
  {
    var depth: nat, k: nat :| BeginsAt(g, xs[i..], t, depth, k);
    var ys := xs[i..];
    forall j | 0 <= j < k ensures ys[j].N? && ys[j].n in Z {
      assert ys[..k][j] == ys[j] == xs[i + j];
      TerminalsStay(g, ys[j]);
    }
    if ys[k].N? {
      assert BeginsAt(g, [ys[k]], t, depth, 0);
      FirstMeans(g, [ys[k]], t);
    }
    ReachedFirst(g, Z, F, ys, t, k, 0);
    SeqFirstShift(g, Z, F, xs, i, 0);
  }

  lemma {:induction false} SeqFirstShift(g: Grammar, Z: set<nat>, F: seq<set<nat>>, xs: seq<Symbol>, i: nat, k: nat)
    requires i + k <= |xs| && forall j :: 0 <= j < |xs| && xs[j].N? ==> xs[j].n < |F|
    ensures SeqFirst(g, Z, F, xs[i..], k) == SeqFirst(g, Z, F, xs, i + k)
    decreases |xs| - i - k
  {
    if i + k < |xs| {
      SeqFirstShift(g, Z, F, xs, i, k + 1);
    }
  }

  // ---------------------------------------------------------------- computing them

  /** The nonterminals that the derivability matrix knows to vanish. */
  ghost function Vanishing(derivable: array2<bool>): set<nat>
    requires derivable.Length0 == derivable.Length1
    reads derivable
  {
    set a: nat | EMPTY < a < derivable.Length0 && derivable[a, EMPTY]
  }

  /** The derivability matrix knows nothing false about the symbols that vanish. */
  ghost predicate NullKnown(g: Grammar, derivable: array2<bool>)
    reads derivable
  {
    derivable.Length0 == derivable.Length1 == g.numNonterms && ProperGrammar(g) && NullSound(g, Vanishing(derivable))
  }

  /** It knows exactly the symbols that vanish. */
  ghost predicate NullExact(g: Grammar, derivable: array2<bool>)
    reads derivable
  {
    NullKnown(g, derivable) && NullComplete(g, Vanishing(derivable))
  }

  class DottedProduction {
    const prod: nat
    const dot: nat
    var firstSet: TerminalSet
    var canDeriveEmpty: bool

    constructor (prod: nat, dot: nat)
      ensures this.prod == prod && this.dot == dot && fresh(firstSet) && fresh(firstSet.bitmap)
    {
      this.prod, this.dot := prod, dot;
      firstSet := new TerminalSet(0);
      canDeriveEmpty := false;
    }

    /** What it says of the part of the right-hand side after the dot is true. */
    ghost predicate Sound(g: Grammar)
      reads this, firstSet.bitmap
    {
      && prod < |g.prods| && dot <= |g.prods[prod].rhs| && g.numTerms <= firstSet.Room()
      && (forall t: nat :: t in firstSet.Members() ==> InFirst(g, g.prods[prod].rhs[dot..], t))
      && (canDeriveEmpty ==> Rewrites(g, g.prods[prod].rhs[dot..], []))
    }

    /** It describes the part of the right-hand side after the dot. */
    ghost predicate Exact(g: Grammar)
      reads this, firstSet.bitmap
    {
      && prod < |g.prods| && dot <= |g.prods[prod].rhs| && g.numTerms <= firstSet.Room()
      && (forall t: nat :: t in firstSet.Members() <==> InFirst(g, g.prods[prod].rhs[dot..], t))
      && (canDeriveEmpty <==> Rewrites(g, g.prods[prod].rhs[dot..], []))
    }
  }

  ghost predicate InRange(xs: seq<Symbol>, n: nat, t: nat) {
    forall i :: 0 <= i < |xs| ==> if xs[i].N? then xs[i].n < n else xs[i].t < t
  }

  /** What a sweep over the productions keeps: `F0` at its start, `F` after the first `k` productions. */
  ghost predicate Sweep(g: Grammar, Z: set<nat>, F0: seq<set<nat>>, F: seq<set<nat>>, P: seq<set<nat>>, k: nat,
                        changes: nat) {
    && ProperGrammar(g) && |F0| == |F| == g.numNonterms && |P| == |g.prods| && k <= |g.prods|
    && NullSound(g, Z) && FirstsSound(g, F) && (forall a :: 0 <= a < |F| ==> F0[a] <= F[a])
    && (changes == 0 <==> F == F0)
    && (changes == 0 ==> forall q: nat :: q < k ==> FirstKnown(g, Z, F, q) && SeqKnown(g, Z, F, P, q))
    && (forall q: nat, t :: q < |P| && t in P[q] ==> BeginsAny(g, g.prods[q].rhs, t))
  }

  ghost predicate SeqKnown(g: Grammar, Z: set<nat>, F: seq<set<nat>>, P: seq<set<nat>>, q: nat)
    requires |F| == g.numNonterms && ProperGrammar(g) && q < |g.prods| && |P| == |g.prods|
  {
    assert ProperProduction(g, g.prods[q]);
    SeqFirst(g, Z, F, g.prods[q].rhs, 0) <= P[q]
  }

  ghost predicate ProdsSound(g: Grammar, P: seq<set<nat>>) {
    |P| == |g.prods| && forall q: nat, t: nat :: q < |P| && t in P[q] ==> InFirst(g, g.prods[q].rhs, t)
  }

  /** The First set of a production is that of its right-hand side. */
  ghost predicate ProdsExact(g: Grammar, P: seq<set<nat>>) {
    |P| == |g.prods| && forall q: nat, t: nat :: q < |P| ==> (t in P[q] <==> InFirst(g, g.prods[q].rhs, t))
  }

  lemma SweepStep(g: Grammar, Z: set<nat>, F0: seq<set<nat>>, F: seq<set<nat>>, P: seq<set<nat>>, k: nat, changes: nat,
                  found: set<nat>)
    requires Sweep(g, Z, F0, F, P, k, changes) && k < |g.prods| && g.prods[k].lhs < |F|
    requires InRange(g.prods[k].rhs, g.numNonterms, g.numTerms) && found == SeqFirst(g, Z, F, g.prods[k].rhs, 0)
    ensures var lhs := g.prods[k].lhs;
            Sweep(g, Z, F0, F[lhs := F[lhs] + found], P[k := P[k] + found], k + 1,
                  changes + if found <= F[lhs] then 0 else 1)
  {
    var lhs := g.prods[k].lhs;
    forall t | t in found ensures BeginsAny(g, g.prods[k].rhs, t) && BeginsAny(g, [N(lhs)], t) {
      SoundByFirst(g, Z, F, k, t);
    }
    var F', P' := F[lhs := F[lhs] + found], P[k := P[k] + found];
    forall a: nat, t | a < |F'| && t in F'[a] ensures BeginsAny(g, [N(a)], t) {
    }
    if found <= F[lhs] {
      assert F[lhs] + found == F[lhs] && F' == F;
      if changes == 0 {
        forall q: nat | q < k + 1 ensures FirstKnown(g, Z, F', q) && SeqKnown(g, Z, F', P', q) {
          assert ProperProduction(g, g.prods[q]);
          if q < k {
            assert FirstKnown(g, Z, F, q) && SeqKnown(g, Z, F, P, q);
          }
        }
      }
    } else {
      assert F'[lhs] != F0[lhs];
    }
  }

  lemma SweepDone(g: Grammar, Z: set<nat>, F: seq<set<nat>>, P: seq<set<nat>>)
    requires ProperGrammar(g) && Sweep(g, Z, F, F, P, |g.prods|, 0)
    ensures FirstsSound(g, F) && ProdsSound(g, P)
    ensures NullComplete(g, Z) ==> FirstsExact(g, F) && ProdsExact(g, P)
  {
    forall q: nat, t: nat | q < |P| && t in P[q] ensures InFirst(g, g.prods[q].rhs, t) {
      FirstMeans(g, g.prods[q].rhs, t);
    }
    if NullComplete(g, Z) {
      ClosedIsExact(g, Z, F);
      forall q: nat, t: nat | q < |P| && InFirst(g, g.prods[q].rhs, t) ensures t in P[q] {
        assert ProperProduction(g, g.prods[q]) && SeqKnown(g, Z, F, P, q);
        assert g.prods[q].rhs[0..] == g.prods[q].rhs;
        SeqFirstExact(g, Z, F, g.prods[q].rhs, 0, t);
      }
    }
  }

  /** The terminals still missing from the sets. */
  ghost function Missing(F: seq<set<nat>>, bound: nat): set<(nat, nat)> {
    set a: nat, t: nat | a < |F| && t < bound && t !in F[a] :: (a, t)
  }

  lemma MissingShrinks(F0: seq<set<nat>>, F: seq<set<nat>>, bound: nat)
    requires |F0| == |F| && (forall a :: 0 <= a < |F| ==> F0[a] <= F[a]) && F != F0
    requires forall a: nat, t :: a < |F| && t in F[a] ==> t < bound
    ensures Missing(F, bound) < Missing(F0, bound)
  {
    var a :| 0 <= a < |F| && F0[a] != F[a];
    var t :| t in F[a] && t !in F0[a];
    assert (a, t) in Missing(F0, bound) && (a, t) !in Missing(F, bound);
  }

  /** The dotted forms of production `p`, in the order of the dot. */
  ghost predicate DottedForms(g: Grammar, row: seq<DottedProduction>, p: nat) {
    && p < |g.prods| && |row| == |g.prods[p].rhs| + 1
    && forall i :: 0 <= i < |row| ==> row[i].prod == p && row[i].dot == i
  }

  class FirstAnalysis {
    const g: Grammar
    const derivable: array2<bool>
    /** By nonterminal, and by production. */
    const first: seq<TerminalSet>
    const firstSet: seq<TerminalSet>

    constructor (g: Grammar, derivable: array2<bool>, first: seq<TerminalSet>, firstSet: seq<TerminalSet>)
      ensures this.g == g && this.derivable == derivable && this.first == first && this.firstSet == firstSet
    {
      this.g, this.derivable, this.first, this.firstSet := g, derivable, first, firstSet;
    }

    ghost predicate Valid()
      reads this, derivable
    {
      && ProperGrammar(g) && ProperTerminals(g) && NullKnown(g, derivable)
      && |first| == g.numNonterms && |firstSet| == |g.prods|
      && (forall i :: 0 <= i < |first| ==> first[i].bitmap.Length == Bytes())
      && (forall i :: 0 <= i < |firstSet| ==> firstSet[i].bitmap.Length == Bytes())
      && (forall i, j :: 0 <= i < j < |first| ==> first[i].bitmap != first[j].bitmap)
      && (forall i, j :: 0 <= i < j < |firstSet| ==> firstSet[i].bitmap != firstSet[j].bitmap)
      && (forall i, j :: 0 <= i < |first| && 0 <= j < |firstSet| ==> first[i].bitmap != firstSet[j].bitmap)
    }

    ghost function Bytes(): nat {
      (g.numTerms + 7) / 8
    }

    ghost function Z(): set<nat>
      requires derivable.Length0 == derivable.Length1
      reads derivable
    {
      Vanishing(derivable)
    }

    ghost predicate Holds(F: seq<set<nat>>)
      reads set i | 0 <= i < |first| :: first[i].bitmap
    {
      |F| == |first| && forall i :: 0 <= i < |first| ==> first[i].Members() == F[i]
    }

    ghost predicate ProdsHold(P: seq<set<nat>>)
      reads set i | 0 <= i < |firstSet| :: firstSet[i].bitmap
    {
      |P| == |firstSet| && forall i :: 0 <= i < |firstSet| ==> firstSet[i].Members() == P[i]
    }

    /** Add First of the symbols from `from` on to `destList`. */
    method FirstOfIterSeq(destList: TerminalSet, xs: seq<Symbol>, from: nat, ghost F: seq<set<nat>>)
      requires Valid() && Holds(F) && from <= |xs| && InRange(xs, g.numNonterms, g.numTerms)
      requires forall i :: 0 <= i < |xs| && xs[i].N? ==> xs[i].n > EMPTY
      requires destList.bitmap.Length == Bytes() && forall i :: 0 <= i < |first| ==> first[i].bitmap != destList.bitmap
      modifies destList.bitmap
      ensures destList.Members() == old(destList.Members()) + SeqFirst(g, Z(), F, xs, from)
    {
      var i := from;
      while i < |xs|
        invariant from <= i <= |xs| && Holds(F)
        invariant destList.Members() + SeqFirst(g, Z(), F, xs, i)
                    == old(destList.Members()) + SeqFirst(g, Z(), F, xs, from)
      {
        if xs[i].T? {
          destList.Add(xs[i].t);
          break;
        }
        var grew := destList.Merge(first[xs[i].n]);
        if !derivable[xs[i].n, EMPTY] {
          break;
        }
        i := i + 1;
      }
    }

    /** First of the right-hand side goes to the production and to the left-hand side. */
    method AddProduction(p: nat, ghost F: seq<set<nat>>, ghost P: seq<set<nat>>)
        returns (grew: bool, ghost found: set<nat>)
      requires Valid() && Holds(F) && ProdsHold(P) && p < |g.prods|
      requires InRange(g.prods[p].rhs, g.numNonterms, g.numTerms) && g.prods[p].lhs < |F|
      modifies firstSet[p].bitmap, first[g.prods[p].lhs].bitmap
      ensures Holds(F[g.prods[p].lhs := F[g.prods[p].lhs] + found]) && ProdsHold(P[p := P[p] + found])
      ensures found == SeqFirst(g, Z(), F, g.prods[p].rhs, 0) && (grew <==> !(found <= F[g.prods[p].lhs]))
    {
      assert ProperProduction(g, g.prods[p]);
      var lhs := g.prods[p].lhs;
      var firstOfRHS := new TerminalSet(g.numTerms);
      FirstOfIterSeq(firstOfRHS, g.prods[p].rhs, 0, F);
      found := firstOfRHS.Members();
      var more := firstSet[p].Merge(firstOfRHS);
      grew := first[lhs].Merge(firstOfRHS);
    }

    /** One sweep over the productions. */
    method SweepOnce(ghost start: seq<set<nat>>, ghost P0: seq<set<nat>>)
        returns (changes: nat, ghost F: seq<set<nat>>, ghost P: seq<set<nat>>)
      requires Valid() && Holds(start) && ProdsHold(P0) && Sweep(g, Z(), start, start, P0, 0, 0)
      modifies set i | 0 <= i < |first| :: first[i].bitmap
      modifies set i | 0 <= i < |firstSet| :: firstSet[i].bitmap
      ensures Holds(F) && ProdsHold(P) && Sweep(g, Z(), start, F, P, |g.prods|, changes)
    {
      changes, F, P := 0, start, P0;
      for p := 0 to |g.prods|
        invariant Holds(F) && ProdsHold(P) && Sweep(g, Z(), start, F, P, p, changes)
      {
        RhsInRange(g, p);
        var grew, found := AddProduction(p, F, P);
        SweepStep(g, Z(), start, F, P, p, changes, found);
        F, P := F[g.prods[p].lhs := F[g.prods[p].lhs] + found], P[p := P[p] + found];
        if grew {
          changes := changes + 1;
        }
      }
    }

    /** Sweep over the productions until no First set grows. */
    method ComputeFirst(ghost F0: seq<set<nat>>, ghost P0: seq<set<nat>>)
        returns (ghost F: seq<set<nat>>, ghost P: seq<set<nat>>)
      requires Valid() && Holds(F0) && ProdsHold(P0)
      requires (forall a :: 0 <= a < |F0| ==> F0[a] == {}) && forall p :: 0 <= p < |P0| ==> P0[p] == {}
      modifies set i | 0 <= i < |first| :: first[i].bitmap
      modifies set i | 0 <= i < |firstSet| :: firstSet[i].bitmap
      ensures Holds(F) && ProdsHold(P) && FirstsSound(g, F) && ProdsSound(g, P)
      ensures NullComplete(g, Z()) ==> FirstsExact(g, F) && ProdsExact(g, P)
    {
      F, P := F0, P0;
      var changes: nat := 1;
      while changes > 0
        invariant Holds(F) && ProdsHold(P) && Sweep(g, Z(), F, F, P, 0, 0)
        invariant changes == 0 ==> Sweep(g, Z(), F, F, P, |g.prods|, 0)
        decreases Missing(F, 8 * Bytes()), changes
      {
        ghost var start := F;
        changes, F, P := SweepOnce(start, P);
        if changes > 0 {
          MembersInRange(F);
          MissingShrinks(start, F, 8 * Bytes());
        }
      }
      SweepDone(g, Z(), F, P);
    }

    lemma MembersInRange(F: seq<set<nat>>)
      requires Valid() && Holds(F)
      ensures forall a: nat, t :: a < |F| && t in F[a] ==> t < 8 * Bytes()
    {
      forall a: nat, t | a < |F| && t in F[a] ensures t < 8 * Bytes() {
        assert t in first[a].Members();
      }
    }

    /** Sets to start from: true, and complete if everything that vanishes is known to. */
    ghost predicate FirstsUsable(F: seq<set<nat>>)
      requires derivable.Length0 == derivable.Length1
      reads derivable
    {
      FirstsSound(g, F) && (NullComplete(g, Z()) ==> FirstsExact(g, F))
    }

    /** True of what follows the dot, and all of it if everything that vanishes is known to. */
    ghost predicate Described(d: DottedProduction)
      requires derivable.Length0 == derivable.Length1
      reads derivable, d, d.firstSet.bitmap
    {
      d.Sound(g) && (NullComplete(g, Z()) ==> d.Exact(g))
    }

    /** One dotted production; its old set is thrown away. */
    method FillDottedProduction(d: DottedProduction, ghost F: seq<set<nat>>)
      requires Valid() && Holds(F) && FirstsUsable(F) && d.prod < |g.prods| && d.dot <= |g.prods[d.prod].rhs|
      modifies d
      ensures Described(d) && fresh(d.firstSet) && fresh(d.firstSet.bitmap)
    {
      var rhs := g.prods[d.prod].rhs;
      assert ProperProduction(g, g.prods[d.prod]);
      RhsInRange(g, d.prod);
      d.firstSet := new TerminalSet(g.numTerms);
      FirstOfIterSeq(d.firstSet, rhs, d.dot, F);
      FirstOfRest(rhs, d.dot, F);
      d.canDeriveEmpty := IterSeqCanDeriveEmpty(rhs, d.dot);
    }

    lemma FirstOfRest(xs: seq<Symbol>, from: nat, F: seq<set<nat>>)
      requires Valid() && |F| == g.numNonterms && FirstsUsable(F) && from <= |xs|
      requires forall i :: 0 <= i < |xs| && xs[i].N? ==> EMPTY < xs[i].n < g.numNonterms
      ensures forall t: nat :: t in SeqFirst(g, Z(), F, xs, from) ==> InFirst(g, xs[from..], t)
      ensures NullComplete(g, Z()) ==> forall t: nat :: InFirst(g, xs[from..], t) ==> t in SeqFirst(g, Z(), F, xs, from)
    {
      forall t: nat | t in SeqFirst(g, Z(), F, xs, from) ensures InFirst(g, xs[from..], t) {
        SeqFirstSound(g, Z(), F, xs, from, t);
        FirstMeans(g, xs[from..], t);
      }
      if NullComplete(g, Z()) {
        forall t: nat ensures t in SeqFirst(g, Z(), F, xs, from) <==> InFirst(g, xs[from..], t) {
          SeqFirstExact(g, Z(), F, xs, from, t);
        }
      }
    }

    method IterSeqCanDeriveEmpty(xs: seq<Symbol>, from: nat) returns (yes: bool)
      requires Valid() && from <= |xs| && forall i :: 0 <= i < |xs| && xs[i].N? ==> EMPTY < xs[i].n < g.numNonterms
      ensures yes ==> Rewrites(g, xs[from..], [])
      ensures NullComplete(g, Z()) ==> (yes <==> Rewrites(g, xs[from..], []))
    {
      NothingMeans(g, xs[from..]);
      for i := from to |xs|
        invariant forall j :: from <= j < i ==> Nullable(g, xs[j])
      {
        if xs[i].T? || !derivable[xs[i].n, EMPTY] {
          assert xs[from..][i - from] == xs[i];
          assert NullComplete(g, Z()) ==> !Nullable(g, xs[i]);
          return false;
        }
        assert xs[i].n in Z();
      }
      return true;
    }

    /** The dotted forms of one production. */
    method FillDottedForms(row: seq<DottedProduction>, ghost p: nat, ghost F: seq<set<nat>>)
      requires Valid() && Holds(F) && FirstsUsable(F) && DottedForms(g, row, p)
      modifies set i | 0 <= i < |row| :: row[i]
      ensures forall i :: 0 <= i < |row| ==> Described(row[i]) && fresh(row[i].firstSet.bitmap)
    {
      for posn := 0 to |row|
        invariant Holds(F)
        invariant forall i :: 0 <= i < posn ==> Described(row[i]) && fresh(row[i].firstSet.bitmap)
      {
        assert forall i :: 0 <= i < posn ==> row[i] != row[posn];
        FillDottedProduction(row[posn], F);
      }
    }

    /** All dotted productions, those with the dot at the end included. */
    method ComputeDProdFirsts(dprods: seq<seq<DottedProduction>>, ghost F: seq<set<nat>>)
      requires Valid() && Holds(F) && FirstsUsable(F) && DottedProductions(dprods)
      modifies set p, i | 0 <= p < |dprods| && 0 <= i < |dprods[p]| :: dprods[p][i]
      ensures forall p, i :: 0 <= p < |dprods| && 0 <= i < |dprods[p]| ==> Described(dprods[p][i])
    {
      for p := 0 to |g.prods|
        invariant Holds(F)
        invariant forall q, i :: 0 <= q < p && 0 <= i < |dprods[q]| ==> Described(dprods[q][i])
      {
        assert DottedForms(g, dprods[p], p);
        FillDottedForms(dprods[p], p, F);
      }
    }

    ghost predicate DottedProductions(dprods: seq<seq<DottedProduction>>) {
      |dprods| == |g.prods| && forall p: nat :: p < |dprods| ==> DottedForms(g, dprods[p], p)
    }
  }

  /** Fresh empty sets for `n` nonterminals or productions. */
  method MakeSets(n: nat, numTerms: nat) returns (sets: seq<TerminalSet>)
    ensures |sets| == n
    ensures forall i :: 0 <= i < n ==> fresh(sets[i].bitmap) && sets[i].bitmap.Length == (numTerms + 7) / 8
    ensures forall i :: 0 <= i < n ==> sets[i].Members() == {}
    ensures forall i, j :: 0 <= i < j < n ==> sets[i].bitmap != sets[j].bitmap
  {
    sets := [];
    for k := 0 to n
      invariant |sets| == k
      invariant forall i :: 0 <= i < k ==> fresh(sets[i].bitmap) && sets[i].bitmap.Length == (numTerms + 7) / 8
      invariant forall i :: 0 <= i < k ==> sets[i].Members() == {}
      invariant forall i, j :: 0 <= i < j < k ==> sets[i].bitmap != sets[j].bitmap
    {
      var s := new TerminalSet(numTerms);
      sets := sets + [s];
    }
  }

  lemma RhsInRange(g: Grammar, p: nat)
    requires ProperGrammar(g) && ProperTerminals(g) && p < |g.prods|
    ensures InRange(g.prods[p].rhs, g.numNonterms, g.numTerms) && g.prods[p].lhs < g.numNonterms
  {
    assert ProperProduction(g, g.prods[p]);
  }

  lemma NothingMeans(g: Grammar, xs: seq<Symbol>)
    ensures Rewrites(g, xs, []) <==> AllNullable(g, xs)
  {
    if Rewrites(g, xs, []) {
      var chain :| RewriteChain(g, chain) && chain[0] == xs && chain[|chain| - 1] == [];
      ChainNothing(g, chain);
    }
    if AllNullable(g, xs) {
      ErasePrefix(g, xs, []);
      assert xs + [] == xs;
    }
  }
}
