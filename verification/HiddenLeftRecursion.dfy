/** A grammar without cycles whose tables, once a conflict is resolved by precedence, make the fast path hang. */
module HiddenLeftRecursion {
  import opened Grammars
  import opened LrMachine
  import opened Gss
  import opened Worklist
  import opened Stacks
  import opened Derivability
  import opened NontermOrder
  import opened Language
  import opened StackLoops
  import opened FastPathLoops
  import opened ConflictResolution

  const Y: nat := 1
  const X: nat := 2
  const TOP: nat := 1
  const A: nat := 2
  const B: nat := 3

  /** TOP -> A EOF; A -> B A x; A -> y; B -> empty. */
  const GRAMMAR: Grammar := Grammar(3, 4, [
    Production(TOP, [N(A), T(EOF)]),
    Production(A, [N(B), N(A), T(X)]),
    Production(A, [T(Y)]),
    Production(B, [])])

  /** The states of its automaton, the start state first. */
  const ITEMS: seq<map<Item, set<nat>>> := [
    map[Item(0, 0) := {}, Item(1, 0) := {EOF}, Item(2, 0) := {EOF}, Item(3, 0) := {Y}],
    map[Item(0, 1) := {}],
    map[Item(1, 1) := {EOF, X}, Item(1, 0) := {X}, Item(2, 0) := {X}, Item(3, 0) := {Y}],
    map[Item(2, 1) := {EOF, X}],
    map[Item(1, 2) := {EOF, X}],
    map[Item(1, 3) := {EOF, X}],
    map[Item(0, 2) := {}]]

  const TRANS: map<(nat, Symbol), nat> := map[
    (0, N(A)) := 1, (0, N(B)) := 2, (0, T(Y)) := 3, (1, T(EOF)) := 6,
    (2, N(A)) := 4, (2, N(B)) := 2, (2, T(Y)) := 3, (4, T(X)) := 5]

  const AUTOMATON: Automaton := Automaton(ITEMS, TRANS)

  /** B -> empty has a higher precedence than y. */
  const DECLARATIONS: Declarations := NO_DECLARATIONS.(prodPrec := map[3 := 2], termPrec := map[Y := 1])

  /** In states 0 and 2 the lookahead y allows to shift it and to reduce by B -> empty; the declarations
      remove the shift. */
  const TABLES: ParseTables := ParseTables(GRAMMAR.prods, 7,
    map[(0, Y) := Reduce(3), (2, Y) := Reduce(3), (3, X) := Reduce(2), (3, EOF) := Reduce(2), (1, EOF) := Shift(6),
        (4, X) := Shift(5), (5, X) := Reduce(1), (5, EOF) := Reduce(1)],
    map[(0, A) := 1, (0, B) := 2, (2, A) := 4, (2, B) := 2],
    map[1 := N(A), 2 := N(B), 3 := T(Y), 4 := N(A), 5 := T(X), 6 := T(EOF)],
    map[])

  lemma ItIsAnAutomaton()
    ensures AutomatonSound(GRAMMAR, AUTOMATON)
  {
    forall s: nat, it: Item ensures StateItemSound(GRAMMAR, AUTOMATON, s, it) {
      ItemFound(s, it);
    }
    forall s: nat, x: Symbol ensures TransitionSound(AUTOMATON, s, x) {
    }
    forall s: nat, x: Symbol, it: Item ensures KernelSound(GRAMMAR, AUTOMATON, s, x, it) {
      DotMoved(s, x, it);
    }
  }

  lemma DotMoved(s: nat, x: Symbol, it: Item)
    ensures KernelSound(GRAMMAR, AUTOMATON, s, x, it)
  {
  }

  lemma ItemFound(s: nat, it: Item)
    ensures StateItemSound(GRAMMAR, AUTOMATON, s, it)
  {
    if s == 0 || s == 2 {
      var want := if s == 0 then Item(0, 0) else Item(1, 1);
      assert AfterDot(GRAMMAR, want) == Some(N(A));
      assert AfterDot(GRAMMAR, Item(1, 0)) == Some(N(B));
    }
  }

  lemma ReductionFits(s: nat, t: nat, p: nat)
    ensures ReduceFits(GRAMMAR, AUTOMATON, TABLES, s, t, p)
  {
  }

  lemma ShiftFits(s: nat, t: nat)
    ensures WellFormedCell(ActionEntry(TABLES, s, t))
    ensures ShiftDest(ActionEntry(TABLES, s, t)).Some? ==>
              (s, T(t)) in TRANS && TRANS[(s, T(t))] == ShiftDest(ActionEntry(TABLES, s, t)).value
  {
  }

  lemma GotoFits(s: nat, b: nat)
    ensures (s, b) in TABLES.goto <==> (s, N(b)) in TRANS
    ensures (s, b) in TABLES.goto ==> TABLES.goto[(s, b)] == TRANS[(s, N(b))]
  {
  }

  lemma SymbolFits(s: nat, x: Symbol)
    ensures (s, x) in TRANS ==> SymbolOf(TABLES, TRANS[(s, x)]) == Some(x)
  {
  }

  lemma TheTablesFit()
    ensures TablesFit(GRAMMAR, AUTOMATON, TABLES)
  {
    forall s: nat, t: nat, p: nat ensures ReduceFits(GRAMMAR, AUTOMATON, TABLES, s, t, p) {
      ReductionFits(s, t, p);
    }
    forall s: nat, t: nat {
      ShiftFits(s, t);
    }
    forall s: nat, b: nat {
      GotoFits(s, b);
    }
    forall s: nat, x: Symbol {
      SymbolFits(s, x);
    }
  }

  lemma ShiftDropped()
    ensures !TablesKeepAll(GRAMMAR, AUTOMATON, TABLES)
  {
    assert (0, T(Y)) in TRANS && ShiftDest(ActionEntry(TABLES, 0, Y)) == None;
  }

  /** The cells are what resolving the conflicts leaves in them. */
  lemma ShiftResolved(s: nat)
    requires s == 0 || s == 2
    ensures Resolves(GRAMMAR, DECLARATIONS, ITEMS[s].Keys, Y, Choice(Some(3), [3]), true, Choice(None, [3]))
  {
    var items := ITEMS[s].Keys;
    var judge := Judges(GRAMMAR, DECLARATIONS, items, Y);
    forall b: nat ensures !NearestMaximal(DECLARATIONS, GRAMMAR.prods[3].lhs, Some(b)) {
    }
    assert judge(3) == Verdict(false, true);
    assert AgainstShift(judge, [3]) == [3] && 3 in [3];
    AloneIsNotOutranked(DECLARATIONS, [3]);
  }

  lemma NoTreeWithout(tree: Tree, x: Symbol)
    requires Produces(GRAMMAR, tree, x) && x.T?
    ensures Yield(tree) != []
  {
  }

  lemma ThereIsNoCycle()
    ensures Acyclic(GRAMMAR)
  {
    forall a: nat, b: nat, p: nat, i: nat ensures !UnitStepBy(GRAMMAR, a, b, p, i) {
      if UnitStepBy(GRAMMAR, a, b, p, i) {
        var j := |GRAMMAR.prods[p].rhs| - 1;
        assert Nullable(GRAMMAR, GRAMMAR.prods[p].rhs[j]);
        var tree :| Plain(tree) && Produces(GRAMMAR, tree, GRAMMAR.prods[p].rhs[j]) && Yield(tree) == [];
        NoTreeWithout(tree, GRAMMAR.prods[p].rhs[j]);
      }
    }
  }

  lemma TreeOfOne(tree: Tree, x: Symbol)
    requires Produces(GRAMMAR, tree, x)
    ensures ProducesAll(GRAMMAR, Cons(tree, Nil), [x])
  {
    assert [x][1..] == [];
  }

  lemma TreesOfTwo(left: Tree, right: Tree, x: Symbol, y: Symbol)
    requires Produces(GRAMMAR, left, x) && Produces(GRAMMAR, right, y)
    ensures ProducesAll(GRAMMAR, Cons(left, Cons(right, Nil)), [x, y])
  {
    TreeOfOne(right, y);
    assert [x, y][1..] == [y];
  }

  lemma TheInputIsASentence()
    ensures Generates(GRAMMAR, N(TOP), [Y, EOF])
  {
    var a := Node(2, Cons(Leaf(Y), Nil));
    TreeOfOne(Leaf(Y), T(Y));
    TreesOfTwo(a, Leaf(EOF), N(A), T(EOF));
    var top := Node(0, Cons(a, Cons(Leaf(EOF), Nil)));
    assert Produces(GRAMMAR, top, N(TOP)) && Yield(top) == [Y, EOF];
  }

  lemma EmptyOnTop(st: seq<nat>)
    requires st != [] && (Last(st) == 0 || Last(st) == 2)
    ensures Next(TABLES, Y, st) == Some(st + [2])
  {
    assert st[..|st|] == st;
  }

  lemma TheStackGrows()
    ensures Loops(TABLES, Y) && !HaltsAtLast(TABLES, Y, [START])
  {
    EmptyOnTop([2]);
    assert [2] + [2] == [2] + [] + [2];
    assert Run(TABLES, Y, [2], 1) == Next(TABLES, Y, [2]);
    assert Leads(TABLES, Y, [2], [2] + [] + [2]);
    assert LeadsUp(TABLES, Y, 2, [], 2) && Grows(TABLES, Y, 2);
    assert Goes(TABLES, 0, 2) && StackPath(TABLES, [0, 2]) && Last([0, 2]) == 2;
    assert Reached(TABLES, 2);
    EmptyOnTop([START]);
    forall n: nat ensures !Halts(TABLES, Y, [START], n) {
      if n > 0 {
        GrowsForever(TABLES, Y, [START], 2, n - 1);
      }
    }
  }

  /** The parser hangs on the first token of a sentence, in the start state: that the grammar has no cycles
      is not enough, the tables have to keep all actions. */
  lemma FastPathCanHang(keep: (nat, Tree) -> bool)
    requires KeepsEvery(keep)
    ensures AutomatonSound(GRAMMAR, AUTOMATON) && TablesFit(GRAMMAR, AUTOMATON, TABLES)
    ensures Acyclic(GRAMMAR) && !TablesKeepAll(GRAMMAR, AUTOMATON, TABLES)
    ensures forall s :: s == 0 || s == 2 ==>
              Resolves(GRAMMAR, DECLARATIONS, ITEMS[s].Keys, Y, Choice(Some(3), [3]), true, Choice(None, [3]))
    ensures Generates(GRAMMAR, N(TOP), [Y, EOF]) && Loops(TABLES, Y)
    ensures Hangs(Context(TABLES, Y, 0, keep), Work([StackNode(START, 0, [])], [0], map[], [], 0))
  {
    ItIsAnAutomaton();
    TheTablesFit();
    SoundAutomatonGivesValidTables(GRAMMAR, AUTOMATON, TABLES);
    ShiftDropped();
    ShiftResolved(0);
    ShiftResolved(2);
    ThereIsNoCycle();
    TheInputIsASentence();
    TheStackGrows();
    StartHangs(keep);
  }

  lemma StartHangs(keep: (nat, Tree) -> bool)
    requires KeepsEvery(keep) && ValidTables(TABLES) && !HaltsAtLast(TABLES, Y, [START])
    ensures Hangs(Context(TABLES, Y, 0, keep), Work([StackNode(START, 0, [])], [0], map[], [], 0))
  {
    StackHangs(Context(TABLES, Y, 0, keep), [START]);
    assert ChainWork([START]) == Work([StackNode(START, 0, [])], [0], map[], [], 0);
  }
}
