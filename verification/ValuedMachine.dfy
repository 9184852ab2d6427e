/** The LR machine with a parse tree for every symbol on its stack. */
module ValuedMachine {
  import opened Grammars
  import opened LrMachine

  /** A state above another one carries the tree of the symbol it was entered by. */
  datatype Stack = Stack(states: seq<nat>, values: seq<Tree>)

  ghost predicate Sized(a: Stack) {
    |a.states| == |a.values| + 1
  }

  function ToForest(trees: seq<Tree>): Forest {
    if trees == [] then Nil else Cons(trees[0], ToForest(trees[1..]))
  }

  /** The popped trees become the children of a new node. */
  ghost predicate BuildsBy(pt: ParseTables, t: nat, a: Stack, b: Stack, p: nat) {
    && Sized(a) && ReducesBy(pt, t, a.states, b.states, p)
    && var k := |a.values| - |pt.prods[p].rhs|;
       b.values == a.values[..k] + [Node(p, ToForest(a.values[k..]))]
  }

  ghost predicate BuildStep(pt: ParseTables, t: nat, a: Stack, b: Stack) {
    exists p: nat :: BuildsBy(pt, t, a, b, p)
  }

  ghost predicate BuildRun(pt: ParseTables, t: nat, run: seq<Stack>) {
    run != [] && forall i, j :: 0 <= i < j < |run| && j == i + 1 ==> BuildStep(pt, t, run[i], run[j])
  }

  ghost predicate Builds(pt: ParseTables, t: nat, a: Stack, b: Stack) {
    exists run :: BuildRun(pt, t, run) && run[0] == a && Last(run) == b
  }

  ghost predicate Shifts(pt: ParseTables, t: nat, a: Stack, c: Stack) {
    && a.states != [] && ShiftDest(ActionEntry(pt, Last(a.states), t)).Some?
    && c == Stack(a.states + [ShiftDest(ActionEntry(pt, Last(a.states), t)).value], a.values + [Leaf(t)])
  }

  /** One token: any reductions, then the shift. */
  ghost predicate Reads(pt: ParseTables, t: nat, b: Stack, c: Stack) {
    exists a :: Builds(pt, t, b, a) && Shifts(pt, t, a, c)
  }

  ghost function AfterReading(pt: ParseTables, t: nat, base: iset<Stack>): iset<Stack> {
    iset b, c | b in base && Reads(pt, t, b, c) :: c
  }

  /** Everything the machine can hold after reading the first `i` tokens of `input`. */
  ghost function ReadStacks(pt: ParseTables, input: seq<nat>, i: nat): iset<Stack>
    requires i <= |input|
  {
    if i == 0 then iset{Stack([START], [])} else AfterReading(pt, input[i - 1], ReadStacks(pt, input, i - 1))
  }

  /** ... and while the token at `i` is the lookahead. */
  ghost predicate Building(pt: ParseTables, input: seq<nat>, i: nat, a: Stack)
    requires i < |input|
  {
    exists b :: b in ReadStacks(pt, input, i) && Builds(pt, input[i], b, a)
  }

  lemma BuildsRefl(pt: ParseTables, t: nat, a: Stack)
    ensures Builds(pt, t, a, a)
  {
    var run := [a];
    assert BuildRun(pt, t, run) && run[0] == a && Last(run) == a;
  }

  lemma BuildsTrans(pt: ParseTables, t: nat, a: Stack, b: Stack, c: Stack)
    requires Builds(pt, t, a, b) && BuildStep(pt, t, b, c)
    ensures Builds(pt, t, a, c)
  {
    var run :| BuildRun(pt, t, run) && run[0] == a && Last(run) == b;
    var longer := run + [c];
    assert BuildRun(pt, t, longer) && longer[0] == a && Last(longer) == c;
  }

  lemma BuildingOn(pt: ParseTables, input: seq<nat>, i: nat, a: Stack, b: Stack)
    requires i < |input| && Building(pt, input, i, a) && BuildStep(pt, input[i], a, b)
    ensures Building(pt, input, i, b)
  {
    var first :| first in ReadStacks(pt, input, i) && Builds(pt, input[i], first, a);
    BuildsTrans(pt, input[i], first, a, b);
  }

  lemma BuildingShifts(pt: ParseTables, input: seq<nat>, i: nat, a: Stack, c: Stack)
    requires i < |input| && Building(pt, input, i, a) && Shifts(pt, input[i], a, c)
    ensures c in ReadStacks(pt, input, i + 1)
    ensures i + 1 < |input| ==> Building(pt, input, i + 1, c)
  {
    var b :| b in ReadStacks(pt, input, i) && Builds(pt, input[i], b, a);
    assert Reads(pt, input[i], b, c);
    if i + 1 < |input| {
      BuildsRefl(pt, input[i + 1], c);
    }
  }

  // ---------------------------------------------------------------- without the trees

  lemma {:induction false} RunWithoutTrees(pt: ParseTables, t: nat, run: seq<Stack>)
    requires BuildRun(pt, t, run)
    ensures Reduces(pt, t, run[0].states, Last(run).states)
    decreases |run|
  {
    var k := |run| - 1;
    if k == 0 {
      ReducesRefl(pt, t, run[0].states);
    } else {
      RunWithoutTrees(pt, t, run[..k]);
      assert BuildStep(pt, t, run[k - 1], run[k]);
      var p: nat :| BuildsBy(pt, t, run[k - 1], run[k], p);
      ReducesOne(pt, t, run[k - 1].states, run[k].states, p);
      ReducesTrans(pt, t, run[0].states, run[k - 1].states, run[k].states);
    }
  }

  /** Forgetting the trees leaves a stack of the plain machine. */
  lemma {:induction false} StackWithoutTrees(pt: ParseTables, input: seq<nat>, i: nat, c: Stack)
    requires i <= |input| && c in ReadStacks(pt, input, i)
    ensures c.states in MachineStacks(pt, input, i)
    decreases i
  {
    if i > 0 {
      var t := input[i - 1];
      var b :| b in ReadStacks(pt, input, i - 1) && Reads(pt, t, b, c);
      StackWithoutTrees(pt, input, i - 1, b);
      var a :| Builds(pt, t, b, a) && Shifts(pt, t, a, c);
      var run :| BuildRun(pt, t, run) && run[0] == b && Last(run) == a;
      RunWithoutTrees(pt, t, run);
      assert a.states in Closure(pt, t, MachineStacks(pt, input, i - 1));
    }
  }
}
