/** A grammar whose tables depend on the order in which the items of a state are listed. */
module NonassocConflict {
  import opened Grammars
  import opened LrMachine
  import opened Gss
  import opened ConflictResolution
  import opened TableBuilding

  const LT: nat := 1
  const X: nat := 2
  const TOP: nat := 1
  const E: nat := 2
  const A: nat := 3
  const B: nat := 4

  /** TOP -> E EOF; E -> A; E -> B; A -> E < E; B -> E < E; E -> x. */
  const GRAMMAR: Grammar := Grammar(3, 5, [
    Production(TOP, [N(E), T(EOF)]),
    Production(E, [N(A)]),
    Production(E, [N(B)]),
    Production(A, [N(E), T(LT), N(E)]),
    Production(B, [N(E), T(LT), N(E)]),
    Production(E, [T(X)])])

  const LA: set<nat> := {EOF, LT}

  const ITEMS: seq<map<Item, set<nat>>> := [
    map[Item(0, 0) := {}, Item(1, 0) := LA, Item(2, 0) := LA, Item(3, 0) := LA, Item(4, 0) := LA, Item(5, 0) := LA],
    map[Item(0, 1) := {}, Item(3, 1) := LA, Item(4, 1) := LA],
    map[Item(1, 1) := LA],
    map[Item(2, 1) := LA],
    map[Item(5, 1) := LA],
    map[Item(0, 2) := {}],
    map[Item(3, 2) := LA, Item(4, 2) := LA, Item(1, 0) := LA, Item(2, 0) := LA, Item(3, 0) := LA, Item(4, 0) := LA,
        Item(5, 0) := LA],
    map[Item(3, 3) := LA, Item(4, 3) := LA, Item(3, 1) := LA, Item(4, 1) := LA]]

  const TRANS: map<(nat, Symbol), nat> := map[
    (0, N(E)) := 1, (0, N(A)) := 2, (0, N(B)) := 3, (0, T(X)) := 4, (1, T(EOF)) := 5, (1, T(LT)) := 6,
    (6, N(E)) := 7, (6, N(A)) := 2, (6, N(B)) := 3, (6, T(X)) := 4, (7, T(LT)) := 6]

  const AUTOMATON: Automaton := Automaton(ITEMS, TRANS)

  /** The token < is nonassociative, and both productions have its precedence. */
  const DECLARATIONS: Declarations := NO_DECLARATIONS.(
    prodPrec := map[3 := 1, 4 := 1], termPrec := map[LT := 1], termAssoc := map[LT := AK_NONASSOC])

  lemma ItIsAnAutomaton()
    ensures AutomatonSound(GRAMMAR, AUTOMATON)
  {
    forall s: nat, it: Item ensures StateItemSound(GRAMMAR, AUTOMATON, s, it) {
      ItemFound(s, it);
    }
    forall s: nat, x: Symbol ensures TransitionSound(AUTOMATON, s, x) {
    }
    forall s: nat, x: Symbol, it: Item ensures KernelSound(GRAMMAR, AUTOMATON, s, x, it) {
      DotMoved(s, x, it);
    }
  }

  lemma ItemFound(s: nat, it: Item)
    ensures StateItemSound(GRAMMAR, AUTOMATON, s, it)
  {
    assert AfterDot(GRAMMAR, Item(0, 0)) == AfterDot(GRAMMAR, Item(3, 0)) == AfterDot(GRAMMAR, Item(3, 2))
      == Some(N(E));
    assert AfterDot(GRAMMAR, Item(1, 0)) == Some(N(A)) && AfterDot(GRAMMAR, Item(2, 0)) == Some(N(B));
  }

  lemma DotMoved(s: nat, x: Symbol, it: Item)
    ensures KernelSound(GRAMMAR, AUTOMATON, s, x, it)
  {
    if s == 0 {
      DotMovedFrom(0, x, it);
    } else if s == 6 {
      DotMovedFrom(6, x, it);
    }
  }

  lemma DotMovedFrom(s: nat, x: Symbol, it: Item)
    requires s == 0 || s == 6
    ensures KernelSound(GRAMMAR, AUTOMATON, s, x, it)
  {
  }

  lemma BothPossible(p: nat)
    ensures CanReduceBy(GRAMMAR, ITEMS[7], LT, p) <==> p == 3 || p == 4
  {
  }

  /** Whichever is compared first takes the shift with it and leaves the other. */
  lemma SecondIsSpared(p: nat, q: nat)
    requires (p == 3 && q == 4) || (p == 4 && q == 3)
    ensures ByDeclarations(GRAMMAR, DECLARATIONS, ITEMS[7].Keys, LT, Choice(Some(6), [p, q])) == Choice(None, [q])
  {
    var judge := Judges(GRAMMAR, DECLARATIONS, ITEMS[7].Keys, LT);
    forall a: nat, b: nat ensures !NearestMaximal(DECLARATIONS, a, Some(b)) {
    }
    assert judge(p) == Verdict(false, false) && p in [p, q];
    assert AgainstShift(judge, [p, q]) == [q];
    AloneIsNotOutranked(DECLARATIONS, [q]);
  }

  lemma SecondIsLeft(p: nat, q: nat)
    requires (p == 3 && q == 4) || (p == 4 && q == 3)
    ensures Resolved(GRAMMAR, DECLARATIONS, ITEMS[7], LT, Some(6), true, Reduce(q))
  {
    SecondIsSpared(p, q);
    forall r: nat ensures r in [p, q] <==> CanReduceBy(GRAMMAR, ITEMS[7], LT, r) {
      BothPossible(r);
    }
    assert CellOf(Choice(None, [q])) == Reduce(q);
    assert ResolvedFrom(GRAMMAR, DECLARATIONS, ITEMS[7], LT, Some(6), true, Reduce(q), [p, q], Choice(None, [q]));
  }

  /** There are only two ways to list them. */
  lemma TwoPossible(reds: seq<nat>)
    requires ListsPossible(GRAMMAR, ITEMS[7], LT, reds)
    ensures reds == [3, 4] || reds == [4, 3]
  {
    BothPossible(3);
    BothPossible(4);
    forall p: nat ensures p in reds <==> p == 3 || p == 4 {
      BothPossible(p);
    }
    assert reds[0] in reds;
    var q: nat, rest := if reds[0] == 3 then 4 else 3, reds[1..];
    TailOfDistinct(reds);
    forall r: nat | r in rest ensures r == q {
      assert r in reds;
    }
    assert q in reds;
    OnlyOne(rest, q);
  }

  lemma SecondDiffers(reds: seq<nat>)
    requires Distinct(reds)
    ensures |reds| > 1 ==> reds[0] in reds && reds[1] in reds && reds[0] != reds[1]
  {
  }

  lemma OnlyOne(reds: seq<nat>, q: nat)
    requires Distinct(reds) && q in reds && forall p: nat :: p in reds ==> p == q
    ensures reds == [q]
  {
    SecondDiffers(reds);
    assert reds[0] in reds;
  }

  lemma NotAnError(reds: seq<nat>, r: Choice)
    requires ListsPossible(GRAMMAR, ITEMS[7], LT, reds)
    requires Resolves(GRAMMAR, DECLARATIONS, ITEMS[7].Keys, LT, Choice(Some(6), reds), true, r)
    ensures CellOf(r) != Error
  {
    TwoPossible(reds);
    SecondIsSpared(reds[0], reds[1]);
    assert reds == [reds[0], reds[1]];
  }

  lemma NeverAnError()
    ensures !Resolved(GRAMMAR, DECLARATIONS, ITEMS[7], LT, Some(6), true, Error)
  {
    forall reds: seq<nat>, r: Choice
      ensures !ResolvedFrom(GRAMMAR, DECLARATIONS, ITEMS[7], LT, Some(6), true, Error, reds, r)
    {
      if ResolvedFrom(GRAMMAR, DECLARATIONS, ITEMS[7], LT, Some(6), true, Error, reds, r) {
        NotAnError(reds, r);
      }
    }
  }

  /** The declaration makes < after `E < E` an error, but the table gets one of the reductions: which one
      depends on the order of the items. */
  lemma NonassocLeavesOne()
    ensures AutomatonSound(GRAMMAR, AUTOMATON) && TRANS[(7, T(LT))] == 6
    ensures Resolved(GRAMMAR, DECLARATIONS, ITEMS[7], LT, Some(6), true, Reduce(3))
    ensures Resolved(GRAMMAR, DECLARATIONS, ITEMS[7], LT, Some(6), true, Reduce(4))
    ensures !Resolved(GRAMMAR, DECLARATIONS, ITEMS[7], LT, Some(6), true, Error)
  {
    ItIsAnAutomaton();
    SecondIsLeft(4, 3);
    SecondIsLeft(3, 4);
    NeverAnError();
  }
}
