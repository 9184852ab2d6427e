/** With a cycle in a parse tree of the input, no finite forest offers all its parse trees. */
module CyclicTrees {
  import opened Grammars
  import opened Derivability
  import opened AllTrees

  function Size(tree: Tree): nat {
    match tree
    case Leaf(_) => 1
    case Node(_, kids) => 1 + SizeAll(kids)
    case Alt(left, right) => Size(left) + Size(right)
  }

  function SizeAll(f: Forest): nat {
    match f
    case Nil => 0
    case Cons(head, tail) => Size(head) + SizeAll(tail)
  }

  /** A choice of alternatives is no larger than what it is chosen from. */
  lemma {:induction false} ChosenSize(tree: Tree, t: Tree)
    requires Chooses(tree, t)
    ensures Size(t) <= Size(tree)
    decreases tree
  {
    match tree
    case Leaf(_) =>
    case Node(_, kids) => ChosenSizeAll(kids, t.kids);
    case Alt(left, right) =>
      if Chooses(left, t) {
        ChosenSize(left, t);
      } else {
        ChosenSize(right, t);
      }
  }

  lemma {:induction false} ChosenSizeAll(f: Forest, ts: Forest)
    requires ChoosesAll(f, ts)
    ensures SizeAll(ts) <= SizeAll(f)
    decreases f
  {
    match f
    case Nil =>
    case Cons(head, tail) =>
      ChosenSize(head, ts.head);
      ChosenSizeAll(tail, ts.tail);
  }

  /** The nonterminal is the root of the tree or of a tree inside it. */
  predicate HasNode(g: Grammar, tree: Tree, a: nat) {
    match tree
    case Node(p, kids) => (p < |g.prods| && g.prods[p].lhs == a) || HasNodeIn(g, kids, a)
    case _ => false
  }

  predicate HasNodeIn(g: Grammar, f: Forest, a: nat) {
    match f
    case Nil => false
    case Cons(head, tail) => HasNode(g, head, a) || HasNodeIn(g, tail, a)
  }

  /** `f` derives the symbols with `tree` at position `i` and nothing elsewhere. */
  lemma {:induction false} KidsAround(g: Grammar, xs: seq<Symbol>, i: nat, tree: Tree) returns (f: Forest)
    requires i < |xs| && Plain(tree) && Produces(g, tree, xs[i])
    requires forall j :: 0 <= j < |xs| && j != i ==> Nullable(g, xs[j])
    ensures PlainAll(f) && ProducesAll(g, f, xs) && Yields(f) == Yield(tree) && Size(tree) <= SizeAll(f)
    decreases i
  {
    if i == 0 {
      var rest := NullableSeq(g, xs[1..]);
      f := Cons(tree, rest);
    } else {
      assert Nullable(g, xs[0]);
      var nothing :| Plain(nothing) && Produces(g, nothing, xs[0]) && Yield(nothing) == [];
      var rest := KidsAround(g, xs[1..], i - 1, tree);
      f := Cons(nothing, rest);
    }
  }

  /** A unit step makes a larger tree of the same tokens. */
  lemma OneUp(g: Grammar, a: nat, b: nat, tree: Tree) returns (up: Tree)
    requires UnitStep(g, a, b) && Plain(tree) && Produces(g, tree, N(b))
    ensures Plain(up) && Produces(g, up, N(a)) && Yield(up) == Yield(tree) && Size(tree) < Size(up)
  {
    var p: nat, i: nat :| UnitStepBy(g, a, b, p, i);
    var f := KidsAround(g, g.prods[p].rhs, i, tree);
    up := Node(p, f);
  }

  lemma {:induction false} UpChain(g: Grammar, chain: seq<nat>, tree: Tree) returns (up: Tree)
    requires UnitChain(g, chain) && Plain(tree) && Produces(g, tree, N(chain[|chain| - 1]))
    ensures Plain(up) && Produces(g, up, N(chain[0])) && Yield(up) == Yield(tree) && Size(tree) <= Size(up)
    decreases |chain|
  {
    if |chain| == 1 {
      up := tree;
    } else {
      var rest := UpChain(g, chain[1..], tree);
      assert UnitStep(g, chain[0], chain[1]);
      up := OneUp(g, chain[0], chain[1], rest);
    }
  }

  lemma AroundTheCycle(g: Grammar, a: nat, tree: Tree) returns (up: Tree)
    requires Cyclic(g, a) && Plain(tree) && Produces(g, tree, N(a))
    ensures Plain(up) && Produces(g, up, N(a)) && Yield(up) == Yield(tree) && Size(tree) < Size(up) && HasNode(g, up, a)
  {
    var b: nat :| UnitStep(g, a, b) && DerivesAlone(g, b, a);
    var chain :| UnitChain(g, chain) && chain[0] == b && chain[|chain| - 1] == a;
    var mid := UpChain(g, chain, tree);
    up := OneUp(g, a, b, mid);
  }

  /** One more turn of the cycle, wherever it is in the tree. */
  lemma {:induction false} OneMoreTurn(g: Grammar, tree: Tree, x: Symbol, a: nat) returns (up: Tree)
    requires Plain(tree) && Produces(g, tree, x) && HasNode(g, tree, a) && Cyclic(g, a)
    ensures Plain(up) && Produces(g, up, x) && Yield(up) == Yield(tree) && Size(tree) < Size(up) && HasNode(g, up, a)
    decreases tree
  {
    if x == N(a) {
      up := AroundTheCycle(g, a, tree);
    } else {
      var kids := OneMoreTurnIn(g, tree.kids, g.prods[tree.prod].rhs, a);
      up := Node(tree.prod, kids);
    }
  }

  lemma {:induction false} OneMoreTurnIn(g: Grammar, f: Forest, xs: seq<Symbol>, a: nat) returns (up: Forest)
    requires PlainAll(f) && ProducesAll(g, f, xs) && HasNodeIn(g, f, a) && Cyclic(g, a)
    ensures PlainAll(up) && ProducesAll(g, up, xs) && Yields(up) == Yields(f) && SizeAll(f) < SizeAll(up)
    ensures HasNodeIn(g, up, a)
    decreases f
  {
    if HasNode(g, f.head, a) {
      var head := OneMoreTurn(g, f.head, xs[0], a);
      up := Cons(head, f.tail);
    } else {
      var tail := OneMoreTurnIn(g, f.tail, xs[1..], a);
      up := Cons(f.head, tail);
    }
  }

  lemma {:induction false} ManyTurns(g: Grammar, tree: Tree, x: Symbol, a: nat, n: nat) returns (up: Tree)
    requires Plain(tree) && Produces(g, tree, x) && HasNode(g, tree, a) && Cyclic(g, a)
    ensures Plain(up) && Produces(g, up, x) && Yield(up) == Yield(tree) && n <= Size(up) && HasNode(g, up, a)
    decreases n
  {
    if n == 0 {
      up := tree;
    } else {
      var less := ManyTurns(g, tree, x, a, n - 1);
      up := OneMoreTurn(g, less, x, a);
    }
  }

  /** Whatever the forest, some parse tree is too large to be in it: that the grammar has no cycles cannot be
      dispensed with. */
  lemma NoForestForCycles(g: Grammar, input: seq<nat>, treeTop: Tree, tree: Tree, a: nat)
    requires IsParse(g, input, tree) && HasNode(g, tree, a) && Cyclic(g, a)
    ensures !AllParses(g, input, treeTop)
  {
    var larger := ManyTurns(g, tree, N(g.prods[0].lhs), a, Size(treeTop) + 1);
    assert IsParse(g, input, larger);
    if Chooses(treeTop, larger) {
      ChosenSize(treeTop, larger);
    }
  }
}
