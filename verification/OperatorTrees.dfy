/** What precedence and associativity mean for the trees: an operator never has the wrong operand. */
module OperatorTrees {
  import opened Grammars
  import opened LrMachine
  import opened Acceptance
  import opened Language
  import opened ConflictResolution
  import opened DeclaredCells
  import opened BuiltTrees

  /** Production `p` is e -> e t e. */
  ghost predicate Operator(g: Grammar, p: nat, e: nat, t: nat) {
    p < |g.prods| && g.prods[p] == Production(e, [N(e), T(t), N(e)]) && t < g.numTerms
  }

  /** Some alternative of the tree has production `p` at its root. */
  predicate RootedBy(tree: Tree, p: nat) {
    match tree
    case Leaf(_) => false
    case Node(q, _) => q == p
    case Alt(left, right) => RootedBy(left, p) || RootedBy(right, p)
  }

  /** Child `i` of the forest has production `p` at its root. */
  predicate KidRootedBy(f: Forest, i: nat, p: nat) {
    match f
    case Nil => false
    case Cons(head, tail) => if i == 0 then RootedBy(head, p) else KidRootedBy(tail, i - 1, p)
  }

  /** Nowhere in the tree does a node of `q` have a node of `p` as child `i`. */
  ghost predicate NeverChild(tree: Tree, q: nat, i: nat, p: nat) {
    match tree
    case Leaf(_) => true
    case Node(r, kids) => (r == q ==> !KidRootedBy(kids, i, p)) && NeverChildIn(kids, q, i, p)
    case Alt(left, right) => NeverChild(left, q, i, p) && NeverChild(right, q, i, p)
  }

  ghost predicate NeverChildIn(f: Forest, q: nat, i: nat, p: nat) {
    match f
    case Nil => true
    case Cons(head, tail) => NeverChild(head, q, i, p) && NeverChildIn(tail, q, i, p)
  }

  const LEFT_OPERAND: nat := 0
  const RIGHT_OPERAND: nat := 2

  // ---------------------------------------------------------------- states between the operands

  /** Tables made by the declarations from an automaton that leaves out nothing but what is forbidden. */
  ghost predicate Declared(g: Grammar, d: Declarations, forbid: map<nat, set<nat>>, allowAmbig: bool, a: Automaton,
                           pt: ParseTables) {
    && AutomatonSound(g, a) && AutomatonCompleteBut(g, a, forbid) && TablesFit(g, a, pt)
    && TablesObey(g, d, allowAmbig, a, pt)
  }

  /** Where the next symbol of a tree leads is decided by its root symbol. */
  lemma {:induction false} BeyondSymbol(g: Grammar, pt: ParseTables, s: nat, tree: Tree, x: Symbol)
    requires pt.prods == g.prods && Produces(g, tree, x) && Beyond(pt, s, tree).Some?
    ensures x.T? ==> Beyond(pt, s, tree) == ShiftDest(ActionEntry(pt, s, x.t))
    ensures x.N? ==> (s, x.n) in pt.goto && Beyond(pt, s, tree) == Some(pt.goto[(s, x.n)])
    decreases tree
  {
    match tree
    case Leaf(_) =>
    case Node(_, _) =>
    case Alt(left, _) => BeyondSymbol(g, pt, s, left, x);
  }

  /** The states that an operator and its operands pass through. */
  ghost predicate Passes(g: Grammar, a: Automaton, pt: ParseTables, p: nat, e: nat, t: nat, s: nat, s1: nat, s2: nat,
                         s3: nat) {
    && (s, e) in pt.goto && pt.goto[(s, e)] == s1 && ShiftDest(ActionEntry(pt, s1, t)) == Some(s2)
    && (s2, e) in pt.goto && pt.goto[(s2, e)] == s3 && s3 < |a.items| && Item(p, 3) in a.items[s3]
  }

  lemma ThreeKids(g: Grammar, kids: Forest, e: nat, t: nat)
    requires ProducesAll(g, kids, [N(e), T(t), N(e)])
    ensures kids.Cons? && kids.tail.Cons? && kids.tail.tail.Cons? && kids.tail.tail.tail.Nil?
    ensures Produces(g, kids.head, N(e)) && Produces(g, kids.tail.head, T(t)) && Produces(g, kids.tail.tail.head, N(e))
  {
    var xs := [N(e), T(t), N(e)];
    assert xs[1..] == [T(t), N(e)] && xs[1..][1..] == [N(e)] && xs[1..][1..][1..] == [];
    assert ProducesAll(g, kids.tail, [T(t), N(e)]);
    assert ProducesAll(g, kids.tail.tail, [N(e)]);
    assert ProducesAll(g, kids.tail.tail.tail, []);
  }

  lemma BuildThree(pt: ParseTables, keep: (nat, Tree) -> bool, s: nat, x: Tree, y: Tree, z: Tree, la: nat)
    requires var kids := Cons(x, Cons(y, Cons(z, Nil)));
             CanBuildAll(pt, keep, s, kids, la) && EndOf(pt, s, kids).Some?
    ensures CanBuild(pt, keep, s, x, NextToken(Yield(y) + Yield(z), la))
    ensures var s1 := Beyond(pt, s, x).value;
            && Beyond(pt, s1, y).Some?
            && var s2 := Beyond(pt, s1, y).value;
               && CanBuild(pt, keep, s2, z, la)
               && EndOf(pt, s, Cons(x, Cons(y, Cons(z, Nil)))) == Some(Beyond(pt, s2, z).value)
  {
    var last := Cons(z, Nil);
    var rest := Cons(y, last);
    assert Yields(last) == Yield(z) + Yields(Nil) && Yields(rest) == Yield(y) + Yields(last);
    assert CanBuildAll(pt, keep, Beyond(pt, s, x).value, rest, la);
    var s1 := Beyond(pt, s, x).value;
    assert CanBuildAll(pt, keep, Beyond(pt, s1, y).value, last, la);
    var s2 := Beyond(pt, s1, y).value;
    assert EndOf(pt, s1, rest) == EndOf(pt, s2, last) == EndOf(pt, Beyond(pt, s2, z).value, Nil);
  }

  lemma OperatorPasses(g: Grammar, a: Automaton, pt: ParseTables, keep: (nat, Tree) -> bool, p: nat, e: nat, t: nat,
                       s: nat, kids: Forest, la: nat) returns (s1: nat, s2: nat, s3: nat)
    requires AutomatonSound(g, a) && TablesFit(g, a, pt) && Operator(g, p, e, t)
    requires ProducesAll(g, kids, g.prods[p].rhs) && CanBuild(pt, keep, s, Node(p, kids), la)
    ensures kids.Cons? && kids.tail.Cons? && kids.tail.tail.Cons? && Produces(g, kids.head, N(e))
    ensures Produces(g, kids.tail.head, T(t)) && Produces(g, kids.tail.tail.head, N(e))
    ensures Passes(g, a, pt, p, e, t, s, s1, s2, s3) && CanReduce(ActionEntry(pt, s3, la), p)
    ensures CanBuild(pt, keep, s, kids.head, NextToken(Yield(kids.tail.head) + Yield(kids.tail.tail.head), la))
    ensures CanBuild(pt, keep, s2, kids.tail.tail.head, la)
  {
    ThreeKids(g, kids, e, t);
    var x, y, z := kids.head, kids.tail.head, kids.tail.tail.head;
    assert kids == Cons(x, Cons(y, Cons(z, Nil)));
    BuildThree(pt, keep, s, x, y, z, la);
    BeyondSymbol(g, pt, s, x, N(e));
    s1 := Beyond(pt, s, x).value;
    BeyondSymbol(g, pt, s1, y, T(t));
    s2 := Beyond(pt, s1, y).value;
    BeyondSymbol(g, pt, s2, z, N(e));
    s3 := Beyond(pt, s2, z).value;
    assert ReduceFits(g, a, pt, s3, la, p);
  }

  /** Back from its end, the operator is an item of each state on the way. */
  lemma ItemsBack(g: Grammar, a: Automaton, pt: ParseTables, p: nat, e: nat, t: nat, s: nat, s1: nat, s2: nat, s3: nat)
    requires AutomatonSound(g, a) && TablesFit(g, a, pt) && Operator(g, p, e, t)
    requires Passes(g, a, pt, p, e, t, s, s1, s2, s3)
    ensures s < |a.items| && Item(p, 0) in a.items[s] && s2 < |a.items| && Item(p, 2) in a.items[s2]
    ensures (s, N(e)) in a.trans && a.trans[(s, N(e))] == s1 && (s1, T(t)) in a.trans && a.trans[(s1, T(t))] == s2
    ensures (s2, N(e)) in a.trans && a.trans[(s2, N(e))] == s3 && s1 < |a.items| && Item(p, 1) in a.items[s1]
  {
    assert TransitionSound(a, s2, N(e)) && TransitionSound(a, s1, T(t)) && TransitionSound(a, s, N(e));
    assert KernelSound(g, a, s2, N(e), Item(p, 3));
    assert KernelSound(g, a, s1, T(t), Item(p, 2));
    assert KernelSound(g, a, s, N(e), Item(p, 1));
  }

  /** After an operand comes any operator whose production may be asked for there. */
  lemma OperatorFollows(g: Grammar, e: nat, u: nat, la: set<nat>, operand: Tree)
    requires Produces(g, operand, N(e))
    ensures MayFollow(g, [T(u), N(e)], la, u)
  {
    PickProduces(g, operand, N(e));
    var f := Cons(Leaf(u), Cons(Pick(operand), Nil));
    var w := Yield(Pick(operand));
    var xs := [T(u), N(e)];
    assert xs[1..] == [N(e)] && xs[1..][1..] == [];
    assert Yields(Cons(Pick(operand), Nil)) == w + Yields(Nil);
    assert Yields(f) == [u] + w;
    assert ProducesAll(g, f.tail, [N(e)]) && PlainAll(f.tail);
    assert PlainAll(f) && ProducesAll(g, f, xs);
    assert GeneratesAll(g, xs, [u] + w);
  }

  /** Where operator `q` ends, the token of operator `p` is in its lookahead, and may be shifted if the tables
      allow it: both are operators on `e`. */
  lemma OtherOperator(g: Grammar, forbid: map<nat, set<nat>>, a: Automaton, pt: ParseTables, q: nat, p: nat, e: nat,
                      t: nat, u: nat, s: nat, s1: nat, s2: nat, s3: nat, operand: Tree)
    requires AutomatonSound(g, a) && AutomatonCompleteBut(g, a, forbid) && TablesFit(g, a, pt)
    requires Operator(g, q, e, t) && Operator(g, p, e, u) && Passes(g, a, pt, q, e, t, s, s1, s2, s3)
    requires Produces(g, operand, N(e))
    ensures (s3, T(u)) in a.trans
    ensures !Forbidden(forbid, q, u) ==> Possible(g, a, s3, u, q)
  {
    ItemsBack(g, a, pt, q, e, t, s, s1, s2, s3);
    // the closure of the state before the right operand
    assert ClosureComplete(g, a, forbid, s2, Item(q, 2), p) && AfterDot(g, Item(q, 2)) == Some(N(e));
    assert GotoComplete(g, a, s2, Item(p, 0)) && AfterDot(g, Item(p, 0)) == Some(N(e));
    assert GotoComplete(g, a, s3, Item(p, 1)) && AfterDot(g, Item(p, 1)) == Some(T(u));
    // the closure of the state before the left operand
    assert AfterDot(g, Item(q, 0)) == Some(N(e));
    assert ClosureComplete(g, a, forbid, s, Item(q, 0), p) && ClosureComplete(g, a, forbid, s, Item(p, 0), q);
    if !Forbidden(forbid, q, u) {
      OperatorFollows(g, e, u, a.items[s][Item(p, 0)], operand);
      assert g.prods[p].rhs[0 + 1..] == [T(u), N(e)];
      assert u in a.items[s][Item(q, 0)];
      assert GotoComplete(g, a, s, Item(q, 0));
      assert GotoComplete(g, a, s1, Item(q, 1)) && AfterDot(g, Item(q, 1)) == Some(T(t));
      assert GotoComplete(g, a, s2, Item(q, 2));
    }
  }

  // ---------------------------------------------------------------- the right operand

  lemma WinnerBlocksShift(g: Grammar, d: Declarations, allowAmbig: bool, a: Automaton, pt: ParseTables, s: nat, t: nat,
                          q: nat)
    requires TablesObey(g, d, allowAmbig, a, pt) && s < |a.items| && t < g.numTerms
    requires ReducesBefore(d, q, t) && NothingMaximal(g, d, q) && Possible(g, a, s, t, q)
    ensures ShiftDest(ActionEntry(pt, s, t)) == None
  {
    assert CellObeys(g, d, allowAmbig, a, pt, s, t);
    assert !Grows(g, d, a.items[s].Keys, q, t) && RemovesShift(g, d, a.items[s].Keys, q, t);
  }

  lemma NotRightOperand(g: Grammar, d: Declarations, forbid: map<nat, set<nat>>, allowAmbig: bool, a: Automaton,
                        pt: ParseTables, keep: (nat, Tree) -> bool, q: nat, p: nat, e: nat, t: nat, u: nat, s2: nat,
                        s3: nat, tree: Tree, la: nat)
    requires Declared(g, d, forbid, allowAmbig, a, pt) && Operator(g, q, e, t) && Operator(g, p, e, u)
    requires ReducesBefore(d, q, u) && NothingMaximal(g, d, q) && Possible(g, a, s3, u, q)
    requires (s2, e) in pt.goto && pt.goto[(s2, e)] == s3
    requires Produces(g, tree, N(e)) && CanBuild(pt, keep, s2, tree, la)
    ensures !RootedBy(tree, p)
    decreases tree
  {
    match tree
    case Leaf(_) =>
    case Node(r, kids) =>
      if r == p {
        var r1, r2, r3 := OperatorPasses(g, a, pt, keep, p, e, u, s2, kids, la);
        WinnerBlocksShift(g, d, allowAmbig, a, pt, s3, u, q);
      }
    case Alt(left, right) =>
      NotRightOperand(g, d, forbid, allowAmbig, a, pt, keep, q, p, e, t, u, s2, s3, left, la);
      NotRightOperand(g, d, forbid, allowAmbig, a, pt, keep, q, p, e, t, u, s2, s3, right, la);
  }

  // ---------------------------------------------------------------- the left operand

  /** No other production can decide against the shift first. */
  ghost predicate NoneElse(d: Declarations, p: nat, t: nat) {
    forall r: nat :: r != p ==> !ReducesBefore(d, r, t)
  }

  lemma NotLeftOperand(g: Grammar, d: Declarations, forbid: map<nat, set<nat>>, allowAmbig: bool, a: Automaton,
                       pt: ParseTables, keep: (nat, Tree) -> bool, q: nat, p: nat, e: nat, t: nat, u: nat, s: nat,
                       tree: Tree)
    requires Declared(g, d, forbid, allowAmbig, a, pt) && Operator(g, q, e, t) && Operator(g, p, e, u)
    requires ShiftsBefore(d, p, t) && NoneElse(d, p, t)
    requires Produces(g, tree, N(e)) && CanBuild(pt, keep, s, tree, t)
    ensures !RootedBy(tree, p)
    decreases tree
  {
    match tree
    case Leaf(_) =>
    case Node(r, kids) =>
      if r == p {
        var s1, s2, s3 := OperatorPasses(g, a, pt, keep, p, e, u, s, kids, t);
        OtherOperator(g, forbid, a, pt, p, q, e, u, t, s, s1, s2, s3, kids.head);
        LoserIsNotReduced(g, d, allowAmbig, a, pt, s3, t, p);
      }
    case Alt(left, right) =>
      NotLeftOperand(g, d, forbid, allowAmbig, a, pt, keep, q, p, e, t, u, s, left);
      NotLeftOperand(g, d, forbid, allowAmbig, a, pt, keep, q, p, e, t, u, s, right);
  }

  lemma LoserIsNotReduced(g: Grammar, d: Declarations, allowAmbig: bool, a: Automaton, pt: ParseTables, s: nat, t: nat,
                          p: nat)
    requires TablesObey(g, d, allowAmbig, a, pt) && s < |a.items| && t < g.numTerms && (s, T(t)) in a.trans
    requires ShiftsBefore(d, p, t) && NoneElse(d, p, t)
    ensures !CanReduce(ActionEntry(pt, s, t), p)
  {
    var items := a.items[s].Keys;
    assert CellObeys(g, d, allowAmbig, a, pt, s, t) && LosesToShift(g, d, items, p, t);
    forall r: nat | r != p ensures !RemovesShift(g, d, items, r, t) {
      assert !ReducesBefore(d, r, t);
    }
    assert LoserGoes(g, d, a, pt, s, t, p);
  }

  // ---------------------------------------------------------------- whole trees

  /** What is declared keeps operator `p` with token `u` from being an operand of operator `q` with token `t`. */
  ghost predicate NotOnTheRight(g: Grammar, d: Declarations, forbid: map<nat, set<nat>>, q: nat, u: nat) {
    ReducesBefore(d, q, u) && NothingMaximal(g, d, q) && !Forbidden(forbid, q, u)
  }

  ghost predicate NotOnTheLeft(d: Declarations, p: nat, t: nat) {
    ShiftsBefore(d, p, t) && NoneElse(d, p, t)
  }

  /** No operator has an operand that the declarations keep from it. */
  ghost predicate OperandsObey(g: Grammar, d: Declarations, forbid: map<nat, set<nat>>, tree: Tree) {
    forall q: nat, p: nat, e: nat, t: nat, u: nat :: Operator(g, q, e, t) && Operator(g, p, e, u) ==>
      && (NotOnTheRight(g, d, forbid, q, u) ==> NeverChild(tree, q, RIGHT_OPERAND, p))
      && (NotOnTheLeft(d, p, t) ==> NeverChild(tree, q, LEFT_OPERAND, p))
  }

  lemma {:induction false} TerminalYield(g: Grammar, tree: Tree, t: nat)
    requires Produces(g, tree, T(t))
    ensures Yield(tree) == [t]
    decreases tree
  {
    if tree.Alt? {
      TerminalYield(g, tree.left, t);
    }
  }

  lemma OperandsOfNode(g: Grammar, d: Declarations, forbid: map<nat, set<nat>>, allowAmbig: bool, a: Automaton,
                       pt: ParseTables, keep: (nat, Tree) -> bool, q: nat, p: nat, e: nat, t: nat, u: nat, s: nat,
                       kids: Forest, la: nat)
    requires Declared(g, d, forbid, allowAmbig, a, pt) && Operator(g, q, e, t) && Operator(g, p, e, u)
    requires ProducesAll(g, kids, g.prods[q].rhs) && CanBuild(pt, keep, s, Node(q, kids), la)
    ensures NotOnTheRight(g, d, forbid, q, u) ==> !KidRootedBy(kids, RIGHT_OPERAND, p)
    ensures NotOnTheLeft(d, p, t) ==> !KidRootedBy(kids, LEFT_OPERAND, p)
  {
    var s1, s2, s3 := OperatorPasses(g, a, pt, keep, q, e, t, s, kids, la);
    var x, y, z := kids.head, kids.tail.head, kids.tail.tail.head;
    assert KidRootedBy(kids, RIGHT_OPERAND, p) == KidRootedBy(kids.tail, 1, p) == KidRootedBy(kids.tail.tail, 0, p);
    if NotOnTheRight(g, d, forbid, q, u) {
      OtherOperator(g, forbid, a, pt, q, p, e, t, u, s, s1, s2, s3, x);
      NotRightOperand(g, d, forbid, allowAmbig, a, pt, keep, q, p, e, t, u, s2, s3, z, la);
    }
    if NotOnTheLeft(d, p, t) {
      TerminalYield(g, y, t);
      assert NextToken(Yield(y) + Yield(z), la) == t;
      NotLeftOperand(g, d, forbid, allowAmbig, a, pt, keep, q, p, e, t, u, s, x);
    }
  }

  lemma {:induction false} OperandsOfTree(g: Grammar, d: Declarations, forbid: map<nat, set<nat>>, allowAmbig: bool,
                                          a: Automaton, pt: ParseTables, keep: (nat, Tree) -> bool, q: nat, p: nat,
                                          e: nat, t: nat, u: nat, s: nat, tree: Tree, x: Symbol, la: nat)
    requires Declared(g, d, forbid, allowAmbig, a, pt) && Operator(g, q, e, t) && Operator(g, p, e, u)
    requires Produces(g, tree, x) && CanBuild(pt, keep, s, tree, la)
    ensures NotOnTheRight(g, d, forbid, q, u) ==> NeverChild(tree, q, RIGHT_OPERAND, p)
    ensures NotOnTheLeft(d, p, t) ==> NeverChild(tree, q, LEFT_OPERAND, p)
    decreases tree
  {
    match tree
    case Leaf(_) =>
    case Node(r, kids) =>
      OperandsOfForest(g, d, forbid, allowAmbig, a, pt, keep, q, p, e, t, u, s, kids, g.prods[r].rhs, la);
      if r == q {
        OperandsOfNode(g, d, forbid, allowAmbig, a, pt, keep, q, p, e, t, u, s, kids, la);
      }
    case Alt(left, right) =>
      OperandsOfTree(g, d, forbid, allowAmbig, a, pt, keep, q, p, e, t, u, s, left, x, la);
      OperandsOfTree(g, d, forbid, allowAmbig, a, pt, keep, q, p, e, t, u, s, right, x, la);
  }

  lemma {:induction false} OperandsOfForest(g: Grammar, d: Declarations, forbid: map<nat, set<nat>>, allowAmbig: bool,
                                            a: Automaton, pt: ParseTables, keep: (nat, Tree) -> bool, q: nat, p: nat,
                                            e: nat, t: nat, u: nat, s: nat, f: Forest, xs: seq<Symbol>, la: nat)
    requires Declared(g, d, forbid, allowAmbig, a, pt) && Operator(g, q, e, t) && Operator(g, p, e, u)
    requires ProducesAll(g, f, xs) && CanBuildAll(pt, keep, s, f, la)
    ensures NotOnTheRight(g, d, forbid, q, u) ==> NeverChildIn(f, q, RIGHT_OPERAND, p)
    ensures NotOnTheLeft(d, p, t) ==> NeverChildIn(f, q, LEFT_OPERAND, p)
    decreases f
  {
    match f
    case Nil =>
    case Cons(head, tail) =>
      var next := Beyond(pt, s, head).value;
      OperandsOfTree(g, d, forbid, allowAmbig, a, pt, keep, q, p, e, t, u, s, head, xs[0],
                     NextToken(Yields(tail), la));
      OperandsOfForest(g, d, forbid, allowAmbig, a, pt, keep, q, p, e, t, u, next, tail, xs[1..], la);
  }

  /** In a tree that can be built for the start symbol, every operand obeys the declarations. */
  lemma TreesObey(g: Grammar, d: Declarations, forbid: map<nat, set<nat>>, allowAmbig: bool, a: Automaton,
                  pt: ParseTables, keep: (nat, Tree) -> bool, treeTop: Tree)
    requires Declared(g, d, forbid, allowAmbig, a, pt) && NoStart(g) && Produces(g, treeTop, N(g.prods[0].lhs))
    requires treeTop.Node? && treeTop.prod == 0 && CanBuildAll(pt, keep, START, treeTop.kids, EOF)
    ensures OperandsObey(g, d, forbid, treeTop)
  {
    forall q: nat, p: nat, e: nat, t: nat, u: nat | Operator(g, q, e, t) && Operator(g, p, e, u)
      ensures NotOnTheRight(g, d, forbid, q, u) ==> NeverChild(treeTop, q, RIGHT_OPERAND, p)
      ensures NotOnTheLeft(d, p, t) ==> NeverChild(treeTop, q, LEFT_OPERAND, p)
    {
      assert g.prods[q].rhs[0] == N(e) && e != g.prods[0].lhs;
      OperandsOfForest(g, d, forbid, allowAmbig, a, pt, keep, q, p, e, t, u, START, treeTop.kids, g.prods[0].rhs, EOF);
    }
  }
}
