/** The nondeterministic LR machine reads exactly the language of the grammar. */
module Language {
  import opened Grammars
  import opened LrMachine
  import opened ValuedMachine
  import opened Acceptance

  // ---------------------------------------------------------------- what reading implies

  /** The symbols of a stack derive the tokens read so far. */
  ghost predicate StackDerives(g: Grammar, pt: ParseTables, st: seq<nat>, f: Forest, xs: seq<Symbol>, read: seq<nat>) {
    && StatePath(pt, st) && st[0] == START && |xs| == |st| - 1
    && (forall i :: 0 < i < |st| ==> SymbolOf(pt, st[i]) == Some(xs[i - 1]))
    && ProducesAll(g, f, xs) && PlainAll(f) && Yields(f) == read
  }

  ghost predicate Explained(g: Grammar, pt: ParseTables, st: seq<nat>, read: seq<nat>) {
    exists f, xs :: StackDerives(g, pt, st, f, xs, read)
  }

  function Append(f: Forest, tree: Tree): Forest {
    match f
    case Nil => Cons(tree, Nil)
    case Cons(head, tail) => Cons(head, Append(tail, tree))
  }

  function Take(f: Forest, n: nat): Forest {
    if n == 0 || f.Nil? then Nil else Cons(f.head, Take(f.tail, n - 1))
  }

  function Drop(f: Forest, n: nat): Forest {
    if n == 0 || f.Nil? then f else Drop(f.tail, n - 1)
  }

  lemma {:induction false} AppendProduces(g: Grammar, f: Forest, xs: seq<Symbol>, tree: Tree, x: Symbol)
    requires ProducesAll(g, f, xs) && PlainAll(f) && Produces(g, tree, x) && Plain(tree)
    ensures ProducesAll(g, Append(f, tree), xs + [x]) && PlainAll(Append(f, tree))
    ensures Yields(Append(f, tree)) == Yields(f) + Yield(tree)
    decreases f
  {
    match f
    case Nil =>
      assert xs + [x] == [x] && [x][1..] == [];
      assert Yields(Cons(tree, Nil)) == Yield(tree);
    case Cons(head, tail) =>
      AppendProduces(g, tail, xs[1..], tree, x);
      assert (xs + [x])[1..] == xs[1..] + [x];
  }

  lemma {:induction false} SplitProduces(g: Grammar, f: Forest, xs: seq<Symbol>, n: nat)
    requires ProducesAll(g, f, xs) && PlainAll(f) && n <= |xs|
    ensures ProducesAll(g, Take(f, n), xs[..n]) && PlainAll(Take(f, n))
    ensures ProducesAll(g, Drop(f, n), xs[n..]) && PlainAll(Drop(f, n))
    ensures Yields(f) == Yields(Take(f, n)) + Yields(Drop(f, n))
    decreases f
  {
    if n == 0 {
      assert xs[..0] == [] && xs[0..] == xs;
    } else {
      SplitProduces(g, f.tail, xs[1..], n - 1);
      assert xs[..n][1..] == xs[1..][..n - 1] && xs[n..] == xs[1..][n - 1..];
      assert Take(f, n) == Cons(f.head, Take(f.tail, n - 1)) && Drop(f, n) == Drop(f.tail, n - 1);
    }
  }

  /** The symbols popped by a reduction are its right-hand side. */
  lemma PoppedIsRhs(pt: ParseTables, t: nat, st: seq<nat>, xs: seq<Symbol>, p: nat)
    requires ValidTables(pt) && StatePath(pt, st) && |xs| == |st| - 1 && p < |pt.prods|
    requires forall i :: 0 < i < |st| ==> SymbolOf(pt, st[i]) == Some(xs[i - 1])
    requires CanReduce(ActionEntry(pt, Last(st), t), p) && |pt.prods[p].rhs| < |st|
    ensures xs[|xs| - |pt.prods[p].rhs|..] == pt.prods[p].rhs
  {
    var rhs := pt.prods[p].rhs;
    var n := |xs| - |rhs|;
    var popped := st[n..];
    assert StatePath(pt, popped) && Last(popped) == Last(st);
    assert SpellsRhs(pt, popped, p);
    forall i | 0 <= i < |rhs| ensures xs[n..][i] == rhs[i] {
      assert popped[i + 1] == st[n + i + 1];
      assert SymbolOf(pt, st[n + i + 1]) == Some(xs[n + i]);
      assert SymbolOf(pt, popped[i + 1]) == Some(rhs[i]);
    }
  }

  /** A reduction keeps the explanation: the popped trees become the children of one node. */
  lemma ReduceExplained(g: Grammar, pt: ParseTables, t: nat, st: seq<nat>, st': seq<nat>, p: nat, read: seq<nat>)
    requires ValidTables(pt) && pt.prods == g.prods && Explained(g, pt, st, read) && ReducesBy(pt, t, st, st', p)
    ensures Explained(g, pt, st', read)
  {
    var f, xs :| StackDerives(g, pt, st, f, xs, read);
    var n := |xs| - |pt.prods[p].rhs|;
    PoppedIsRhs(pt, t, st, xs, p);
    SplitProduces(g, f, xs, n);
    var tree, b := Node(p, Drop(f, n)), pt.prods[p].lhs;
    AppendProduces(g, Take(f, n), xs[..n], tree, N(b));
    var base := st[..n + 1];
    GotoKeepsPath(pt, base, xs[..n], b);
    assert st' == base + [pt.goto[(Last(base), b)]];
    Explain(g, pt, st', Append(Take(f, n), tree), xs[..n] + [N(b)], read);
  }

  lemma Explain(g: Grammar, pt: ParseTables, st: seq<nat>, f: Forest, xs: seq<Symbol>, read: seq<nat>)
    requires StackDerives(g, pt, st, f, xs, read)
    ensures Explained(g, pt, st, read)
  {
  }

  lemma GotoKeepsPath(pt: ParseTables, base: seq<nat>, xs: seq<Symbol>, b: nat)
    requires ValidTables(pt) && StatePath(pt, base) && |xs| == |base| - 1 && (Last(base), b) in pt.goto
    requires forall i :: 0 < i < |base| ==> SymbolOf(pt, base[i]) == Some(xs[i - 1])
    ensures var st := base + [pt.goto[(Last(base), b)]];
            StatePath(pt, st) && forall i :: 0 < i < |st| ==> SymbolOf(pt, st[i]) == Some((xs + [N(b)])[i - 1])
  {
    assert GotoValid(pt, Last(base), b);
  }

  lemma ShiftExplained(g: Grammar, pt: ParseTables, t: nat, st: seq<nat>, d: nat, read: seq<nat>)
    requires ValidTables(pt) && Explained(g, pt, st, read) && st != []
    requires ShiftDest(ActionEntry(pt, Last(st), t)) == Some(d)
    ensures Explained(g, pt, st + [d], read + [t])
  {
    var f, xs :| StackDerives(g, pt, st, f, xs, read);
    assert ShiftValid(pt, Last(st), t);
    AppendProduces(g, f, xs, Leaf(t), T(t));
    assert StackDerives(g, pt, st + [d], Append(f, Leaf(t)), xs + [T(t)], read + [t]);
  }

  lemma {:induction false} RunExplained(g: Grammar, pt: ParseTables, t: nat, run: seq<seq<nat>>, read: seq<nat>)
    requires ValidTables(pt) && pt.prods == g.prods && ReduceRun(pt, t, run) && Explained(g, pt, run[0], read)
    ensures Explained(g, pt, Last(run), read)
    decreases |run|
  {
    if |run| > 1 {
      var k := |run| - 1;
      RunExplained(g, pt, t, run[..k], read);
      assert ReduceStep(pt, t, run[k - 1], run[k]);
      var p: nat :| ReducesBy(pt, t, run[k - 1], run[k], p);
      ReduceExplained(g, pt, t, run[k - 1], run[k], p, read);
    }
  }

  /** The stack before the last shift. */
  lemma Unshift(pt: ParseTables, input: seq<nat>, i: nat, st: seq<nat>) returns (before: seq<nat>)
    requires i < |input| && st in MachineStacks(pt, input, i + 1)
    ensures before in Closure(pt, input[i], MachineStacks(pt, input, i)) && before != []
    ensures ShiftDest(ActionEntry(pt, Last(before), input[i])).Some?
    ensures st == before + [ShiftDest(ActionEntry(pt, Last(before), input[i])).value]
  {
    before :| before in Closure(pt, input[i], MachineStacks(pt, input, i)) && before != []
      && ShiftDest(ActionEntry(pt, Last(before), input[i])).Some?
      && st == before + [ShiftDest(ActionEntry(pt, Last(before), input[i])).value];
  }

  /** Every stack the machine can hold derives exactly what has been read. */
  lemma {:induction false} MachineExplained(g: Grammar, pt: ParseTables, input: seq<nat>, i: nat, st: seq<nat>)
    requires ValidTables(pt) && pt.prods == g.prods && i <= |input| && st in MachineStacks(pt, input, i)
    ensures Explained(g, pt, st, input[..i])
    decreases i
  {
    if i == 0 {
      assert StackDerives(g, pt, [START], Nil, [], []);
    } else {
      var base, read := MachineStacks(pt, input, i - 1), input[..i - 1];
      forall b | b in base ensures Explained(g, pt, b, read) {
        MachineExplained(g, pt, input, i - 1, b);
      }
      var before := Unshift(pt, input, i - 1, st);
      TokenExplained(g, pt, input[i - 1], base, before, read);
      assert input[..i - 1] + [input[i - 1]] == input[..i];
    }
  }

  lemma TokenExplained(g: Grammar, pt: ParseTables, t: nat, base: iset<seq<nat>>, before: seq<nat>, read: seq<nat>)
    requires ValidTables(pt) && pt.prods == g.prods && forall b :: b in base ==> Explained(g, pt, b, read)
    requires before in Closure(pt, t, base) && before != [] && ShiftDest(ActionEntry(pt, Last(before), t)).Some?
    ensures Explained(g, pt, before + [ShiftDest(ActionEntry(pt, Last(before), t)).value], read + [t])
  {
    var b :| b in base && Reduces(pt, t, b, before);
    var run :| ReduceRun(pt, t, run) && run[0] == b && Last(run) == before;
    RunExplained(g, pt, t, run, read);
    ShiftExplained(g, pt, t, before, ShiftDest(ActionEntry(pt, Last(before), t)).value, read);
  }

  /** If the machine reads an input that ends with end of input, the start symbol derives it. */
  lemma ReadingDerives(g: Grammar, pt: ParseTables, input: seq<nat>, afterStart: nat, last: nat)
    requires ValidTables(pt) && pt.prods == g.prods && EofShape(g, pt, afterStart, last)
    requires input != [] && Last(input) == EOF && MachineStacks(pt, input, |input|) != iset{}
    ensures g.prods != [] && Generates(g, N(g.prods[0].lhs), input)
  {
    var n := |input|;
    var st :| st in MachineStacks(pt, input, n);
    MachineExplained(g, pt, input, n, st);
    assert input[..n] == input;
    var before := Unshift(pt, input, n - 1, st);
    FinalStackDerives(g, pt, input, st, afterStart, last);
  }

  lemma FinalStackDerives(g: Grammar, pt: ParseTables, input: seq<nat>, st: seq<nat>, afterStart: nat, last: nat)
    requires ValidTables(pt) && EofShape(g, pt, afterStart, last) && Explained(g, pt, st, input)
    requires |st| > 1 && ShiftDest(ActionEntry(pt, st[|st| - 2], EOF)) == Some(Last(st))
    ensures g.prods != [] && Generates(g, N(g.prods[0].lhs), input)
  {
    var f, xs :| StackDerives(g, pt, st, f, xs, input);
    OnTopOfStart(g, pt, st, afterStart, last);
    assert ShiftValid(pt, afterStart, EOF);
    assert xs == g.prods[0].rhs;
    var tree := Node(0, f);
    assert Plain(tree) && Produces(g, tree, N(g.prods[0].lhs)) && Yield(tree) == input;
  }

  lemma OnTopOfStart(g: Grammar, pt: ParseTables, st: seq<nat>, afterStart: nat, last: nat)
    requires ValidTables(pt) && StatePath(pt, st) && st[0] == START && EofShape(g, pt, afterStart, last)
    requires |st| > 1 && ShiftDest(ActionEntry(pt, st[|st| - 2], EOF)) == Some(Last(st))
    ensures |st| == 3 && st[1] == afterStart
  {
    var k := |st| - 2;
    assert st[k] == afterStart;
    assert k > 0;
    assert Goes(pt, st[k - 1], st[k]);
    if k > 1 {
      NeverBackToStart(pt, st[k - 2], st[k - 1]);
    }
  }

  // ---------------------------------------------------------------- what the language implies

  /** Terminals that may follow: a first token of `rest`, or `la` when `rest` vanishes. */
  ghost predicate MayFollow(g: Grammar, rest: seq<Symbol>, la: set<nat>, t: nat) {
    (exists w :: GeneratesAll(g, rest, [t] + w)) || (GeneratesAll(g, rest, []) && t in la)
  }

  /** Production `q` must not be reduced by before `t`. */
  ghost predicate Forbidden(forbid: map<nat, set<nat>>, q: nat, t: nat) {
    q in forbid && t in forbid[q]
  }

  /** A production that is asked for is there, with every terminal that may follow and is not forbidden. */
  ghost predicate ClosureComplete(g: Grammar, a: Automaton, forbid: map<nat, set<nat>>, s: nat, it: Item, q: nat) {
    (s < |a.items| && it in a.items[s] && ItemIn(g, it) && q < |g.prods|
     && AfterDot(g, it) == Some(N(g.prods[q].lhs))) ==>
      && Item(q, 0) in a.items[s]
      && forall t: nat :: MayFollow(g, g.prods[it.prod].rhs[it.dot + 1..], a.items[s][it], t) ==>
           Forbidden(forbid, q, t) || t in a.items[s][Item(q, 0)]
  }

  ghost predicate GotoComplete(g: Grammar, a: Automaton, s: nat, it: Item) {
    (s < |a.items| && it in a.items[s] && AfterDot(g, it).Some?) ==>
      && (s, AfterDot(g, it).value) in a.trans
      && var u := a.trans[(s, AfterDot(g, it).value)];
         u < |a.items| && Item(it.prod, it.dot + 1) in a.items[u]
           && a.items[s][it] <= a.items[u][Item(it.prod, it.dot + 1)]
  }

  /** Closure and transitions leave nothing out, but for the forbidden lookaheads. */
  ghost predicate AutomatonCompleteBut(g: Grammar, a: Automaton, forbid: map<nat, set<nat>>) {
    && |a.items| > START && Item(0, 0) in a.items[START]
    && (forall s: nat, it: Item, q: nat :: ClosureComplete(g, a, forbid, s, it, q))
    && (forall s: nat, it: Item :: GotoComplete(g, a, s, it))
  }

  /** Closure and transitions leave nothing out, lookaheads included. */
  ghost predicate AutomatonComplete(g: Grammar, a: Automaton) {
    AutomatonCompleteBut(g, a, map[])
  }

  /** No conflict resolution: the tables keep every action of the automaton. */
  ghost predicate TablesKeepAll(g: Grammar, a: Automaton, pt: ParseTables) {
    && (forall s: nat, p: nat, t: nat :: KeepsReduce(g, a, pt, s, p, t))
    && (forall s: nat, t: nat :: (s, T(t)) in a.trans ==> ShiftDest(ActionEntry(pt, s, t)) == Some(a.trans[(s, T(t))]))
  }

  ghost predicate KeepsReduce(g: Grammar, a: Automaton, pt: ParseTables, s: nat, p: nat, t: nat) {
    (s < |a.items| && 0 < p < |g.prods| && Item(p, |g.prods[p].rhs|) in a.items[s]
     && t in a.items[s][Item(p, |g.prods[p].rhs|)]) ==>
      CanReduce(ActionEntry(pt, s, t), p)
  }

  ghost predicate Complete(g: Grammar, a: Automaton, pt: ParseTables) {
    TablesFit(g, a, pt) && AutomatonComplete(g, a) && TablesKeepAll(g, a, pt)
  }

  function Trees(f: Forest): seq<Tree> {
    match f
    case Nil => []
    case Cons(head, tail) => [head] + Trees(tail)
  }

  lemma {:induction false} TreesOfForest(g: Grammar, f: Forest, xs: seq<Symbol>)
    requires ProducesAll(g, f, xs)
    ensures ToForest(Trees(f)) == f && |Trees(f)| == |xs|
  {
    match f
    case Nil =>
    case Cons(_, tail) =>
      TreesOfForest(g, tail, xs[1..]);
      assert Trees(f)[1..] == Trees(tail);
  }

  /** The machine can follow a parse tree: from a state that expects its root, with the tokens it yields next
      in the input and a permitted token after them, to the state beyond the root, building that tree. */
  lemma {:induction false} FollowTree(g: Grammar, a: Automaton, pt: ParseTables, input: seq<nat>, c: Stack,
                                      it: Item, tree: Tree, i: nat, j: nat)
    requires Complete(g, a, pt) && StateItemOK(g, a, c.states, it) && AfterDot(g, it).Some? && Augmented(g)
    requires i <= j < |input| && Sized(c) && Building(pt, input, i, c)
    requires Plain(tree) && Produces(g, tree, AfterDot(g, it).value) && Yield(tree) == input[i..j]
    requires MayFollow(g, g.prods[it.prod].rhs[it.dot + 1..], a.items[Last(c.states)][it], input[j])
    requires tree.Node? ==> tree.prod > 0
    requires NoStart(g)
    ensures (Last(c.states), AfterDot(g, it).value) in a.trans
    ensures Building(pt, input, j, With(c, a.trans[(Last(c.states), AfterDot(g, it).value)], tree))
    decreases tree, 2
  {
    var s, x := Last(c.states), AfterDot(g, it).value;
    assert GotoComplete(g, a, s, it);
    match tree
    case Leaf(t) =>
      assert input[i..j] == [t];
      assert j == i + 1 && input[i] == t;
      ShiftsTo(g, a, pt, input, c, t, i);
    case Node(q, kids) =>
      assert ClosureComplete(g, a, map[], s, it, q);
      var c' := FollowForest(g, a, pt, input, c, Item(q, 0), kids, i, j);
      assert KeepsReduce(g, a, pt, Last(c'.states), q, input[j]);
      NodeBuilt(g, pt, input[j], c, c', q, kids, a.trans[(s, x)]);
      BuildingOn(pt, input, j, c', With(c, a.trans[(s, x)], tree));
  }

  /** The trees have been put on top of the stack. */
  ghost predicate OnTopOf(c: Stack, c': Stack, trees: seq<Tree>) {
    c.states <= c'.states && c'.values == c.values + trees
  }

  lemma OnTopOfItself(c: Stack)
    ensures OnTopOf(c, c, [])
  {
  }

  lemma OnTopThen(a: Stack, b: Stack, c: Stack, first: seq<Tree>, rest: seq<Tree>)
    requires OnTopOf(a, b, first) && OnTopOf(b, c, rest)
    ensures OnTopOf(a, c, first + rest)
  {
    assert a.values + first + rest == a.values + (first + rest);
  }

  function With(c: Stack, s: nat, tree: Tree): Stack {
    Stack(c.states + [s], c.values + [tree])
  }

  lemma NodeBuilt(g: Grammar, pt: ParseTables, t: nat, c: Stack, c': Stack, q: nat, kids: Forest, s: nat)
    requires pt.prods == g.prods && q < |g.prods| && ProducesAll(g, kids, g.prods[q].rhs) && Sized(c) && Sized(c')
    requires OnTopOf(c, c', Trees(kids)) && CanReduce(ActionEntry(pt, Last(c'.states), t), q)
    requires (Last(c.states), g.prods[q].lhs) in pt.goto && pt.goto[(Last(c.states), g.prods[q].lhs)] == s
    ensures BuildStep(pt, t, c', With(c, s, Node(q, kids)))
  {
    TreesOfForest(g, kids, g.prods[q].rhs);
    assert c'.states[..|c'.states| - |g.prods[q].rhs|] == c.states;
    assert c'.values[..|c.values|] == c.values && c'.values[|c.values|..] == Trees(kids);
    assert BuildsBy(pt, t, c', With(c, s, Node(q, kids)), q);
  }

  ghost predicate StateItemOK(g: Grammar, a: Automaton, st: seq<nat>, it: Item) {
    st != [] && Last(st) < |a.items| && it in a.items[Last(st)] && ItemIn(g, it)
  }

  /** The start symbol is not used on any right-hand side and has one production. */
  ghost predicate NoStart(g: Grammar) {
    && g.prods != []
    && (forall p: nat :: 0 < p < |g.prods| ==> g.prods[p].lhs != g.prods[0].lhs)
    && (forall p: nat, i: nat :: p < |g.prods| && i < |g.prods[p].rhs| ==> g.prods[p].rhs[i] != N(g.prods[0].lhs))
  }

  lemma ShiftsTo(g: Grammar, a: Automaton, pt: ParseTables, input: seq<nat>, c: Stack, t: nat, i: nat)
    requires Complete(g, a, pt) && i + 1 <= |input| && input[i] == t && Building(pt, input, i, c) && Sized(c)
    requires (Last(c.states), T(t)) in a.trans
    ensures With(c, a.trans[(Last(c.states), T(t))], Leaf(t)) in ReadStacks(pt, input, i + 1)
    ensures i + 1 < |input| ==> Building(pt, input, i + 1, With(c, a.trans[(Last(c.states), T(t))], Leaf(t)))
  {
    assert ShiftDest(ActionEntry(pt, Last(c.states), t)) == Some(a.trans[(Last(c.states), T(t))]);
    BuildingShifts(pt, input, i, c, With(c, a.trans[(Last(c.states), T(t))], Leaf(t)));
  }

  lemma SplitYield(input: seq<nat>, i: nat, j: nat, left: seq<nat>, right: seq<nat>)
    requires i <= j <= |input| && left + right == input[i..j]
    ensures i + |left| <= j && left == input[i..i + |left|] && right == input[i + |left|..j]
  {
    assert |left + right| == j - i;
    forall k | 0 <= k < |left| ensures left[k] == input[i..i + |left|][k] {
      assert (left + right)[k] == input[i..j][k];
    }
    forall k | 0 <= k < |right| ensures right[k] == input[i + |left|..j][k] {
      assert (left + right)[|left| + k] == input[i..j][|left| + k];
    }
  }

  /** The token at `m` may follow what precedes `rest` when `rest` derives the tokens up to `j`. */
  lemma FirstOfRest(g: Grammar, rest: seq<Symbol>, f: Forest, input: seq<nat>, m: nat, j: nat, la: set<nat>)
    requires PlainAll(f) && ProducesAll(g, f, rest) && m <= j < |input| && Yields(f) == input[m..j] && input[j] in la
    ensures MayFollow(g, rest, la, input[m])
  {
    assert GeneratesAll(g, rest, input[m..j]);
    if m < j {
      assert input[m..j] == [input[m]] + input[m + 1..j];
    }
  }

  /** No tree inside another one is a tree of the start production. */
  lemma NotStartTree(g: Grammar, tree: Tree, rhs: seq<Symbol>, p: nat, i: nat)
    requires NoStart(g) && p < |g.prods| && g.prods[p].rhs == rhs && i < |rhs| && Produces(g, tree, rhs[i])
    ensures tree.Node? ==> tree.prod > 0
  {
    if tree.Node? {
      assert rhs[i] == N(g.prods[tree.prod].lhs);
    }
  }

  /** The item with the dot moved is in the next state, with the same lookahead. */
  lemma NextItem(g: Grammar, a: Automaton, st: seq<nat>, it: Item, t: nat)
    requires AutomatonComplete(g, a) && StateItemOK(g, a, st, it) && it.dot < |g.prods[it.prod].rhs|
    requires t in a.items[Last(st)][it]
    ensures (Last(st), g.prods[it.prod].rhs[it.dot]) in a.trans
    ensures var st' := st + [a.trans[(Last(st), g.prods[it.prod].rhs[it.dot])]];
            StateItemOK(g, a, st', Item(it.prod, it.dot + 1)) && t in a.items[Last(st')][Item(it.prod, it.dot + 1)]
  {
    assert GotoComplete(g, a, Last(st), it);
  }

  /** ... and the trees of the rest of a right-hand side, ending in the complete item. */
  lemma {:induction false} FollowForest(g: Grammar, a: Automaton, pt: ParseTables, input: seq<nat>, c: Stack,
                                        it: Item, f: Forest, i: nat, j: nat) returns (c': Stack)
    requires Complete(g, a, pt) && StateItemOK(g, a, c.states, it) && Augmented(g) && NoStart(g) && Sized(c)
    requires i <= j < |input| && Building(pt, input, i, c) && input[j] in a.items[Last(c.states)][it]
    requires PlainAll(f) && ProducesAll(g, f, g.prods[it.prod].rhs[it.dot..]) && Yields(f) == input[i..j]
    ensures Building(pt, input, j, c') && Sized(c') && OnTopOf(c, c', Trees(f))
    ensures var done := Item(it.prod, |g.prods[it.prod].rhs|);
            Last(c'.states) < |a.items| && done in a.items[Last(c'.states)]
              && input[j] in a.items[Last(c'.states)][done]
    decreases f, 1
  {
    match f
    case Nil =>
      assert |g.prods[it.prod].rhs[it.dot..]| == 0;
      assert input[i..j] == [] && i == j;
      c' := c;
      OnTopOfItself(c);
    case Cons(head, tail) =>
      var mid, m := FollowHead(g, a, pt, input, c, it, f, i, j);
      c' := FollowForest(g, a, pt, input, mid, Item(it.prod, it.dot + 1), tail, m, j);
      OnTopThen(c, mid, c', [head], Trees(tail));
  }

  /** The first of these trees. */
  lemma {:induction false} FollowHead(g: Grammar, a: Automaton, pt: ParseTables, input: seq<nat>, c: Stack,
                                      it: Item, f: Forest, i: nat, j: nat) returns (mid: Stack, m: nat)
    requires Complete(g, a, pt) && StateItemOK(g, a, c.states, it) && Augmented(g) && NoStart(g) && f.Cons? && Sized(c)
    requires i <= j < |input| && Building(pt, input, i, c) && input[j] in a.items[Last(c.states)][it]
    requires PlainAll(f) && ProducesAll(g, f, g.prods[it.prod].rhs[it.dot..]) && Yields(f) == input[i..j]
    ensures it.dot < |g.prods[it.prod].rhs| && Sized(mid) && OnTopOf(c, mid, [f.head]) && i <= m <= j
    ensures Building(pt, input, m, mid) && StateItemOK(g, a, mid.states, Item(it.prod, it.dot + 1))
    ensures input[j] in a.items[Last(mid.states)][Item(it.prod, it.dot + 1)]
    ensures ProducesAll(g, f.tail, g.prods[it.prod].rhs[it.dot + 1..]) && Yields(f.tail) == input[m..j]
    decreases f, 0
  {
    var rhs := g.prods[it.prod].rhs;
    assert it.dot < |rhs| && rhs[it.dot..][0] == rhs[it.dot] && rhs[it.dot..][1..] == rhs[it.dot + 1..];
    m := i + |Yield(f.head)|;
    SplitYield(input, i, j, Yield(f.head), Yields(f.tail));
    FirstOfRest(g, rhs[it.dot + 1..], f.tail, input, m, j, a.items[Last(c.states)][it]);
    NotStartTree(g, f.head, rhs, it.prod, it.dot);
    FollowTree(g, a, pt, input, c, it, f.head, i, m);
    NextItem(g, a, c.states, it, input[j]);
    mid := With(c, a.trans[(Last(c.states), rhs[it.dot])], f.head);
  }

  lemma TwoKids(g: Grammar, f: Forest, xs: seq<Symbol>)
    requires ProducesAll(g, f, xs) && PlainAll(f) && |xs| == 2
    ensures f.Cons? && f.tail.Cons? && f.tail.tail.Nil?
    ensures Produces(g, f.head, xs[0]) && Produces(g, f.tail.head, xs[1]) && Plain(f.head) && Plain(f.tail.head)
  {
    assert xs[1..][0] == xs[1] && ProducesAll(g, f.tail, xs[1..]);
    assert xs[1..][1..] == [] && ProducesAll(g, f.tail.tail, xs[1..][1..]);
  }

  /** The machine follows the tree of the start symbol up to the last token. */
  lemma StartIsRead(g: Grammar, a: Automaton, pt: ParseTables, input: seq<nat>, tree: Tree)
    requires Complete(g, a, pt) && Augmented(g) && NoStart(g) && input != [] && Last(input) == EOF
    requires Plain(tree) && Produces(g, tree, g.prods[0].rhs[0]) && Yield(tree) == input[..|input| - 1]
    ensures (START, g.prods[0].rhs[0]) in a.trans
    ensures Building(pt, input, |input| - 1, With(Stack([START], []), a.trans[(START, g.prods[0].rhs[0])], tree))
  {
    var k := |input| - 1;
    var rhs := g.prods[0].rhs;
    var start := Stack([START], []);
    BuildsRefl(pt, input[0], start);
    assert Building(pt, input, 0, start);
    assert rhs[0 + 1..] == [T(EOF)] && input[0..k] == input[..k];
    EofFollows(g);
    if tree.Node? {
      assert g.prods[tree.prod].lhs != g.prods[0].lhs;
    }
    FollowTree(g, a, pt, input, start, Item(0, 0), tree, 0, k);
  }

  lemma TwoInForest(x: Tree, y: Tree)
    ensures ToForest([x, y]) == Cons(x, Cons(y, Nil))
  {
    assert [x, y][1..] == [y] && [y][1..] == [];
    assert ToForest([y]) == Cons(y, ToForest([]));
  }

  /** A tree of the whole input is one of the start symbol with end of input beside it. */
  lemma StartTree(g: Grammar, tree: Tree, input: seq<nat>) returns (top: Tree)
    requires Augmented(g) && NoStart(g) && Plain(tree) && Produces(g, tree, N(g.prods[0].lhs)) && Yield(tree) == input
    ensures tree == Node(0, Cons(top, Cons(Leaf(EOF), Nil))) && Plain(top) && Produces(g, top, g.prods[0].rhs[0])
    ensures input == Yield(top) + [EOF]
  {
    var f := tree.kids;
    TwoKids(g, f, g.prods[0].rhs);
    assert tree.prod == 0 && f.tail.head == Leaf(EOF);
    assert Yields(f) == Yield(f.head) + Yields(f.tail) && Yields(f.tail) == [EOF] + Yields(Nil);
    top := f.head;
  }

  /** Every parse tree of an input can be built while reading it. */
  lemma EveryTreeIsBuilt(g: Grammar, a: Automaton, pt: ParseTables, input: seq<nat>, tree: Tree) returns (c: Stack)
    requires Complete(g, a, pt) && Augmented(g) && NoStart(g)
    requires Plain(tree) && Produces(g, tree, N(g.prods[0].lhs)) && Yield(tree) == input
    ensures c in ReadStacks(pt, input, |input|) && tree == Node(0, ToForest(c.values))
  {
    var top := StartTree(g, tree, input);
    assert input[..|input| - 1] == Yield(top);
    StartIsRead(g, a, pt, input, top);
    c := EofIsShifted(g, a, pt, input, top);
    TwoInForest(top, Leaf(EOF));
  }

  lemma EofIsShifted(g: Grammar, a: Automaton, pt: ParseTables, input: seq<nat>, tree: Tree) returns (c: Stack)
    requires Complete(g, a, pt) && Augmented(g) && input != [] && Last(input) == EOF
    requires (START, g.prods[0].rhs[0]) in a.trans
    requires Building(pt, input, |input| - 1, With(Stack([START], []), a.trans[(START, g.prods[0].rhs[0])], tree))
    ensures c in ReadStacks(pt, input, |input|) && c.values == [tree, Leaf(EOF)]
  {
    assert GotoComplete(g, a, START, Item(0, 0));
    var before := With(Stack([START], []), a.trans[(START, g.prods[0].rhs[0])], tree);
    assert GotoComplete(g, a, Last(before.states), Item(0, 1));
    ShiftsTo(g, a, pt, input, before, EOF, |input| - 1);
    c := With(before, a.trans[(Last(before.states), T(EOF))], Leaf(EOF));
  }

  /** Every string of the language is read by the machine. */
  lemma LanguageIsRead(g: Grammar, a: Automaton, pt: ParseTables, input: seq<nat>)
    requires Complete(g, a, pt) && Augmented(g) && NoStart(g)
    requires Generates(g, N(g.prods[0].lhs), input)
    ensures MachineStacks(pt, input, |input|) != iset{}
  {
    var tree :| Plain(tree) && Produces(g, tree, N(g.prods[0].lhs)) && Yield(tree) == input;
    var c := EveryTreeIsBuilt(g, a, pt, input, tree);
    StackWithoutTrees(pt, input, |input|, c);
  }

  lemma EofFollows(g: Grammar)
    ensures GeneratesAll(g, [T(EOF)], [EOF] + [])
  {
    var f := Cons(Leaf(EOF), Nil);
    assert ProducesAll(g, Nil, [T(EOF)][1..]);
    assert Produces(g, Leaf(EOF), [T(EOF)][0]);
    assert Yields(f) == [EOF] + Yields(Nil);
    assert PlainAll(Nil);
    assert PlainAll(f) && ProducesAll(g, f, [T(EOF)]) && Yields(f) == [EOF] + [];
  }

  /** Without conflict resolution the machine reads exactly the language. */
  lemma MachineReadsLanguage(g: Grammar, a: Automaton, pt: ParseTables, input: seq<nat>, afterStart: nat, last: nat)
    requires ValidTables(pt) && EofShape(g, pt, afterStart, last) && Complete(g, a, pt) && Augmented(g) && NoStart(g)
    requires input != [] && Last(input) == EOF
    ensures MachineStacks(pt, input, |input|) != iset{} <==> Generates(g, N(g.prods[0].lhs), input)
  {
    if MachineStacks(pt, input, |input|) != iset{} {
      ReadingDerives(g, pt, input, afterStart, last);
    }
    if Generates(g, N(g.prods[0].lhs), input) {
      LanguageIsRead(g, a, pt, input);
    }
  }
}
