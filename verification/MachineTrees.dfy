/** Whatever alternatives are chosen in the tree that the parser returns, the LR machine builds that tree. */
module MachineTrees {
  import opened Grammars
  import opened LrMachine
  import opened Acceptance
  import opened ValuedMachine
  import opened Language
  import opened AllTrees
  import opened BuiltTrees
  import opened Stacks
  import opened GlrParser

  /** The machine can have built the tree once it has read the input. */
  ghost predicate MachineBuilds(pt: ParseTables, input: seq<nat>, tree: Tree) {
    exists c :: c in ReadStacks(pt, input, |input|) && tree == Node(0, ToForest(c.values))
  }

  /** Every choice of alternatives is a tree of the machine. */
  ghost predicate OnlyMachineTrees(pt: ParseTables, input: seq<nat>, treeTop: Tree) {
    forall tree :: Chooses(treeTop, tree) ==> MachineBuilds(pt, input, tree)
  }

  /** Every tree of the machine is a choice of alternatives. */
  ghost predicate AllMachineTrees(pt: ParseTables, input: seq<nat>, treeTop: Tree) {
    forall tree :: MachineBuilds(pt, input, tree) ==> Chooses(treeTop, tree)
  }

  lemma {:induction false} ChosenCanBeBuilt(g: Grammar, pt: ParseTables, keep: (nat, Tree) -> bool,
                                            every: (nat, Tree) -> bool, s: nat, tree: Tree, t: Tree, x: Symbol, la: nat)
    requires pt.prods == g.prods && KeepsEvery(every) && Produces(g, tree, x)
    requires CanBuild(pt, keep, s, tree, la) && Chooses(tree, t)
    ensures CanBuild(pt, every, s, t, la) && Beyond(pt, s, t) == Beyond(pt, s, tree)
    decreases tree
  {
    match tree
    case Leaf(_) =>
    case Node(p, kids) => ChosenCanBeBuiltAll(g, pt, keep, every, s, kids, t.kids, g.prods[p].rhs, la);
    case Alt(left, right) =>
      if Chooses(left, t) {
        ChosenCanBeBuilt(g, pt, keep, every, s, left, t, x, la);
      } else {
        ChosenCanBeBuilt(g, pt, keep, every, s, right, t, x, la);
      }
  }

  lemma {:induction false} ChosenCanBeBuiltAll(g: Grammar, pt: ParseTables, keep: (nat, Tree) -> bool,
                                               every: (nat, Tree) -> bool, s: nat, f: Forest, ts: Forest,
                                               xs: seq<Symbol>, la: nat)
    requires pt.prods == g.prods && KeepsEvery(every) && ProducesAll(g, f, xs)
    requires CanBuildAll(pt, keep, s, f, la) && ChoosesAll(f, ts)
    ensures CanBuildAll(pt, every, s, ts, la) && EndOf(pt, s, ts) == EndOf(pt, s, f)
    decreases f
  {
    match f
    case Nil =>
    case Cons(head, tail) =>
      ChosenProducesAll(g, tail, ts.tail, xs[1..]);
      ChosenCanBeBuilt(g, pt, keep, every, s, head, ts.head, xs[0], NextToken(Yields(tail), la));
      ChosenCanBeBuiltAll(g, pt, keep, every, Beyond(pt, s, head).value, tail, ts.tail, xs[1..], la);
  }

  /** From a stack that the machine has when it sees the token at `i`, it builds the tree of the tokens up to `j`. */
  lemma {:induction false} FollowBuilt(g: Grammar, pt: ParseTables, keep: (nat, Tree) -> bool, input: seq<nat>,
                                       c: Stack, tree: Tree, x: Symbol, i: nat, j: nat)
    requires pt.prods == g.prods && i <= j < |input| && Sized(c) && Building(pt, input, i, c)
    requires Plain(tree) && Produces(g, tree, x) && Yield(tree) == input[i..j]
    requires CanBuild(pt, keep, Last(c.states), tree, input[j])
    ensures Building(pt, input, j, With(c, Beyond(pt, Last(c.states), tree).value, tree))
    decreases tree
  {
    var s := Beyond(pt, Last(c.states), tree).value;
    match tree
    case Leaf(t) =>
      assert input[i..j] == [t];
      assert j == i + 1 && input[i] == t;
      BuildingShifts(pt, input, i, c, With(c, s, tree));
    case Node(q, kids) =>
      var c' := FollowBuiltAll(g, pt, keep, input, c, kids, g.prods[q].rhs, i, j);
      NodeBuilt(g, pt, input[j], c, c', q, kids, s);
      BuildingOn(pt, input, j, c', With(c, s, tree));
  }

  lemma {:induction false} FollowBuiltAll(g: Grammar, pt: ParseTables, keep: (nat, Tree) -> bool, input: seq<nat>,
                                          c: Stack, f: Forest, xs: seq<Symbol>, i: nat, j: nat) returns (c': Stack)
    requires pt.prods == g.prods && i <= j < |input| && Sized(c) && Building(pt, input, i, c)
    requires PlainAll(f) && ProducesAll(g, f, xs) && Yields(f) == input[i..j]
    requires CanBuildAll(pt, keep, Last(c.states), f, input[j])
    ensures Sized(c') && OnTopOf(c, c', Trees(f)) && Building(pt, input, j, c')
    ensures EndOf(pt, Last(c.states), f) == Some(Last(c'.states))
    decreases f
  {
    match f
    case Nil =>
      assert i == j;
      c' := c;
      OnTopOfItself(c);
    case Cons(head, tail) =>
      SplitYield(input, i, j, Yield(head), Yields(tail));
      var m := i + |Yield(head)|;
      assert NextToken(Yields(tail), input[j]) == input[m];
      FollowBuilt(g, pt, keep, input, c, head, xs[0], i, m);
      var next := With(c, Beyond(pt, Last(c.states), head).value, head);
      c' := FollowBuiltAll(g, pt, keep, input, next, tail, xs[1..], m, j);
      OnTopThen(c, next, c', [head], Trees(tail));
  }

  /** The trees that the returned one stands for are trees of the machine. */
  lemma ChosenIsRead(g: Grammar, pt: ParseTables, keep: (nat, Tree) -> bool, every: (nat, Tree) -> bool,
                     input: seq<nat>, treeTop: Tree, tree: Tree)
    requires pt.prods == g.prods && KeepsEvery(every) && Augmented(g) && NoStart(g)
    requires TopBuilt(pt, keep, treeTop) && Produces(g, treeTop, N(g.prods[0].lhs)) && Yield(treeTop) == input
    requires Chooses(treeTop, tree)
    ensures MachineBuilds(pt, input, tree)
  {
    ChosenProduces(g, treeTop, tree, N(g.prods[0].lhs));
    ChosenCanBeBuiltAll(g, pt, keep, every, START, treeTop.kids, tree.kids, g.prods[0].rhs, EOF);
    var top := StartTree(g, tree, input);
    var start, n := Stack([START], []), |input| - 1;
    assert input[0..n] == Yield(top) && input[n] == EOF;
    assert start in ReadStacks(pt, input, 0);
    BuildsRefl(pt, input[0], start);
    assert Yields(Cons(Leaf(EOF), Nil)) == [EOF] + Yields(Nil);
    FollowBuilt(g, pt, every, input, start, top, g.prods[0].rhs[0], 0, n);
    var before := With(start, Beyond(pt, START, top).value, top);
    assert CanBuildAll(pt, every, Last(before.states), Cons(Leaf(EOF), Nil), EOF);
    EofBuilt(pt, every, input, before, top);
  }

  /** After the tree of the start symbol, end of input. */
  lemma EofBuilt(pt: ParseTables, every: (nat, Tree) -> bool, input: seq<nat>, c: Stack, top: Tree)
    requires input != [] && Last(input) == EOF && Sized(c) && c.values == [top]
    requires Building(pt, input, |input| - 1, c)
    requires CanBuildAll(pt, every, Last(c.states), Cons(Leaf(EOF), Nil), EOF)
    ensures MachineBuilds(pt, input, Node(0, Cons(top, Cons(Leaf(EOF), Nil))))
  {
    var c' := With(c, Beyond(pt, Last(c.states), Leaf(EOF)).value, Leaf(EOF));
    BuildingShifts(pt, input, |input| - 1, c, c');
    TwoInForest(top, Leaf(EOF));
    assert c'.values == [top, Leaf(EOF)];
  }
}
