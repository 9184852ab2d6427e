/** Parse tables, the LR automaton they come from, and the nondeterministic LR machine. */
module LrMachine {
  import opened Grammars

  datatype Action = Error | Shift(dest: nat) | Reduce(prod: nat) | Ambig(acts: seq<Action>)

  /** Decoded parse tables. A missing action is an error; a missing goto is never consulted. */
  datatype ParseTables = ParseTables(
    prods: seq<Production>,
    numStates: nat,
    action: map<(nat, nat), Action>,
    goto: map<(nat, nat), nat>,
    symbol: map<nat, Symbol>,
    order: map<nat, nat>)

  function Last<A>(s: seq<A>): A
    requires s != []
  {
    s[|s| - 1]
  }

  const START: nat := 0
  const EOF: nat := 0

  function ActionEntry(pt: ParseTables, s: nat, t: nat): Action {
    if (s, t) in pt.action then pt.action[(s, t)] else Error
  }

  /** Every cell is an error, one action, or a set of at least two distinct ones, the shift first. */
  predicate SimpleAction(a: Action) {
    a.Shift? || a.Reduce?
  }

  ghost predicate WellFormedCell(a: Action) {
    a.Ambig? ==>
      && |a.acts| >= 2
      && (forall i :: 0 <= i < |a.acts| ==> SimpleAction(a.acts[i]))
      && (forall i :: 0 < i < |a.acts| ==> a.acts[i].Reduce?)
      && (forall i, j :: 0 <= i < j < |a.acts| ==> a.acts[i] != a.acts[j])
  }

  ghost predicate CanReduce(a: Action, p: nat) {
    match a
    case Reduce(q) => p == q
    case Ambig(acts) => Reduce(p) in acts
    case _ => false
  }

  /** The shift found by scanning an entry for its first shift action. */
  function ShiftDest(a: Action): Option<nat> {
    match a
    case Shift(d) => Some(d)
    case Ambig(acts) => FirstShift(acts)
    case _ => None
  }

  function FirstShift(acts: seq<Action>): Option<nat> {
    if acts == [] then None
    else if acts[0].Shift? then Some(acts[0].dest)
    else FirstShift(acts[1..])
  }

  // ---------------------------------------------------------------- the automaton

  datatype Item = Item(prod: nat, dot: nat)

  /** States are item sets, each item with its lookahead terminals. */
  datatype Automaton = Automaton(items: seq<map<Item, set<nat>>>, trans: map<(nat, Symbol), nat>)

  ghost predicate ItemIn(g: Grammar, it: Item) {
    it.prod < |g.prods| && it.dot <= |g.prods[it.prod].rhs|
  }

  function AfterDot(g: Grammar, it: Item): Option<Symbol> {
    if it.prod < |g.prods| && it.dot < |g.prods[it.prod].rhs| then Some(g.prods[it.prod].rhs[it.dot]) else None
  }

  function SymbolOf(pt: ParseTables, s: nat): Option<Symbol> {
    if s in pt.symbol then Some(pt.symbol[s]) else None
  }

  /** Some item of `items` wants a `b` next. */
  ghost predicate Expects(g: Grammar, items: map<Item, set<nat>>, x: Symbol) {
    exists it :: it in items && AfterDot(g, it) == Some(x)
  }

  /** Only legitimate items: the start state holds no kernel but production 0, nonkernel items come
      from closure, kernel items from moving the dot along every transition into the state. */
  ghost predicate AutomatonSound(g: Grammar, a: Automaton) {
    && |a.items| > START
    && (forall s: nat, it: Item :: StateItemSound(g, a, s, it))
    && (forall s: nat, x: Symbol :: TransitionSound(a, s, x))
    && (forall s: nat, x: Symbol, it: Item :: KernelSound(g, a, s, x, it))
  }

  ghost predicate StateItemSound(g: Grammar, a: Automaton, s: nat, it: Item) {
    s < |a.items| && it in a.items[s] ==>
      && ItemIn(g, it)
      && (s == START ==> it.dot == 0)
      && (it.dot == 0 && it.prod == 0 ==> s == START)
      && (it.dot == 0 && it.prod != 0 ==> Expects(g, a.items[s], N(g.prods[it.prod].lhs)))
      && (AfterDot(g, it).Some? ==> (s, AfterDot(g, it).value) in a.trans)
  }

  ghost predicate TransitionSound(a: Automaton, s: nat, x: Symbol) {
    (s, x) in a.trans ==> s < |a.items| && START < a.trans[(s, x)] < |a.items|
  }

  /** Kernel items of a target are items of the source with the dot before `x`. */
  ghost predicate KernelSound(g: Grammar, a: Automaton, s: nat, x: Symbol, it: Item) {
    (s, x) in a.trans && s < |a.items| && a.trans[(s, x)] < |a.items| && it in a.items[a.trans[(s, x)]]
      && it.dot > 0 ==>
      Item(it.prod, it.dot - 1) in a.items[s] && AfterDot(g, Item(it.prod, it.dot - 1)) == Some(x)
  }

  /** The tables take their actions, gotos and state symbols from the automaton;
      conflict resolution may have dropped some actions. Production 0 is never reduced. */
  ghost predicate TablesFit(g: Grammar, a: Automaton, pt: ParseTables) {
    && pt.prods == g.prods
    && pt.numStates == |a.items|
    && (forall s: nat, t: nat :: WellFormedCell(ActionEntry(pt, s, t)))
    && (forall s: nat, t: nat, p: nat :: ReduceFits(g, a, pt, s, t, p))
    && (forall s: nat, t: nat :: ShiftDest(ActionEntry(pt, s, t)).Some? ==>
          (s, T(t)) in a.trans && a.trans[(s, T(t))] == ShiftDest(ActionEntry(pt, s, t)).value)
    && (forall s: nat, b: nat :: (s, b) in pt.goto <==> (s, N(b)) in a.trans)
    && (forall s: nat, b: nat :: (s, b) in pt.goto ==> pt.goto[(s, b)] == a.trans[(s, N(b))])
    && (forall s: nat, x: Symbol :: (s, x) in a.trans ==> SymbolOf(pt, a.trans[(s, x)]) == Some(x))
  }

  ghost predicate ReduceFits(g: Grammar, a: Automaton, pt: ParseTables, s: nat, t: nat, p: nat) {
    CanReduce(ActionEntry(pt, s, t), p) ==>
      && 0 < p < |g.prods| && s < |a.items| && Item(p, |g.prods[p].rhs|) in a.items[s]
      && t in a.items[s][Item(p, |g.prods[p].rhs|)]
  }

  // ---------------------------------------------------------------- paths through the tables

  /** The tables take a parser from state `from` to state `to`. */
  ghost predicate Goes(pt: ParseTables, from: nat, to: nat) {
    match SymbolOf(pt, to)
    case None => false
    case Some(T(t)) => ShiftDest(ActionEntry(pt, from, t)) == Some(to)
    case Some(N(b)) => (from, b) in pt.goto && pt.goto[(from, b)] == to
  }

  ghost predicate StatePath(pt: ParseTables, st: seq<nat>) {
    && st != []
    && forall i, j :: 0 <= i < j < |st| && j == i + 1 ==> Goes(pt, st[i], st[j])
  }

  /** A stack as the tables allow it, from the start state on. */
  ghost predicate StackPath(pt: ParseTables, st: seq<nat>) {
    StatePath(pt, st) && st[0] == START
  }

  ghost predicate Reached(pt: ParseTables, s: nat) {
    exists st: seq<nat> :: st != [] && Last(st) == s && StackPath(pt, st)
  }

  /** A path of |rhs| transitions into a state that reduces by `p` spells the right-hand side of
      `p`, and the state it leaves behind has a goto on the left-hand side. */
  ghost predicate SpellsRhs(pt: ParseTables, st: seq<nat>, p: nat) {
    p < |pt.prods| && |st| == |pt.prods[p].rhs| + 1 ==>
      && (forall i :: 0 < i < |st| ==> SymbolOf(pt, st[i]) == Some(pt.prods[p].rhs[i - 1]))
      && (st[0], pt.prods[p].lhs) in pt.goto
  }

  /** What the parser core relies on. */
  ghost predicate ValidTables(pt: ParseTables) {
    && (forall s: nat, t: nat :: WellFormedCell(ActionEntry(pt, s, t)))
    && (forall s: nat, t: nat, p: nat :: CanReduce(ActionEntry(pt, s, t), p) ==> p < |pt.prods|)
    && (forall s: nat, t: nat :: ShiftValid(pt, s, t))
    && (forall s: nat, b: nat :: GotoValid(pt, s, b))
    && (forall st: seq<nat>, t: nat, p: nat ::
          StatePath(pt, st) && CanReduce(ActionEntry(pt, Last(st), t), p) ==>
            SpellsRhs(pt, st, p) && (st[0] == START ==> |pt.prods[p].rhs| < |st|))
  }

  ghost predicate ShiftValid(pt: ParseTables, s: nat, t: nat) {
    match ShiftDest(ActionEntry(pt, s, t))
    case None => true
    case Some(d) => START < d < pt.numStates && SymbolOf(pt, d) == Some(T(t))
  }

  ghost predicate GotoValid(pt: ParseTables, s: nat, b: nat) {
    (s, b) in pt.goto ==> START < pt.goto[(s, b)] < pt.numStates && SymbolOf(pt, pt.goto[(s, b)]) == Some(N(b))
  }

  lemma GoesIsTransition(g: Grammar, a: Automaton, pt: ParseTables, s: nat, u: nat)
    requires AutomatonSound(g, a) && TablesFit(g, a, pt) && Goes(pt, s, u)
    ensures (s, SymbolOf(pt, u).value) in a.trans && a.trans[(s, SymbolOf(pt, u).value)] == u
    ensures s < |a.items| && u < |a.items|
  {
    assert TransitionSound(a, s, SymbolOf(pt, u).value);
  }

  /** Walking back from a state that holds an item passes over the symbols before its dot. */
  lemma {:induction false} WalkBack(g: Grammar, a: Automaton, pt: ParseTables, st: seq<nat>, it: Item, k: nat)
    requires AutomatonSound(g, a) && TablesFit(g, a, pt) && StatePath(pt, st)
    requires Last(st) < |a.items| && it in a.items[Last(st)] && k <= it.dot
    requires k < |st| || st[0] == START
    ensures k < |st| && it.prod < |g.prods| && it.dot <= |g.prods[it.prod].rhs|
    ensures st[|st| - 1 - k] < |a.items| && Item(it.prod, it.dot - k) in a.items[st[|st| - 1 - k]]
    ensures forall i :: |st| - k <= i < |st| ==>
              SymbolOf(pt, st[i]) == Some(g.prods[it.prod].rhs[it.dot - |st| + i])
    decreases k
  {
    assert StateItemSound(g, a, Last(st), it);
    if k > 0 {
      if |st| == 1 {
        assert false;
      } else {
        var s, u := st[|st| - 2], st[|st| - 1];
        GoesIsTransition(g, a, pt, s, u);
        assert KernelSound(g, a, s, SymbolOf(pt, u).value, it);
        WalkBack(g, a, pt, st[..|st| - 1], Item(it.prod, it.dot - 1), k - 1);
      }
    }
  }

  /** Tables taken from a sound automaton are valid, whatever conflict resolution dropped. */
  lemma SoundAutomatonGivesValidTables(g: Grammar, a: Automaton, pt: ParseTables)
    requires AutomatonSound(g, a) && TablesFit(g, a, pt)
    ensures ValidTables(pt)
  {
    forall s: nat, t: nat, p: nat | CanReduce(ActionEntry(pt, s, t), p) ensures p < |pt.prods| {
      assert ReduceFits(g, a, pt, s, t, p);
    }
    forall s: nat, t: nat ensures ShiftValid(pt, s, t) {
      assert TransitionSound(a, s, T(t));
    }
    forall s: nat, b: nat ensures GotoValid(pt, s, b) {
      assert TransitionSound(a, s, N(b));
    }
    forall st: seq<nat>, t: nat, p: nat | StatePath(pt, st) && CanReduce(ActionEntry(pt, Last(st), t), p)
      ensures SpellsRhs(pt, st, p) && (st[0] == START ==> |pt.prods[p].rhs| < |st|)
    {
      PathFacts(g, a, pt, st, t, p);
    }
  }

  lemma PathFacts(g: Grammar, a: Automaton, pt: ParseTables, st: seq<nat>, t: nat, p: nat)
    requires AutomatonSound(g, a) && TablesFit(g, a, pt)
    requires StatePath(pt, st) && CanReduce(ActionEntry(pt, Last(st), t), p)
    ensures p < |pt.prods| && SpellsRhs(pt, st, p) && (st[0] == START ==> |pt.prods[p].rhs| < |st|)
  {
    assert ReduceFits(g, a, pt, Last(st), t, p);
    var n := |g.prods[p].rhs|;
    if n < |st| || st[0] == START {
      WalkBack(g, a, pt, st, Item(p, n), n);
      if |st| == n + 1 {
        assert StateItemSound(g, a, st[0], Item(p, 0));
        var it :| it in a.items[st[0]] && AfterDot(g, it) == Some(N(g.prods[p].lhs));
        assert StateItemSound(g, a, st[0], it);
      }
    }
  }

  // ---------------------------------------------------------------- the machine

  /** Pop the right-hand side of `p`, push the goto state. */
  ghost predicate ReducesBy(pt: ParseTables, t: nat, st: seq<nat>, st': seq<nat>, p: nat) {
    && st != [] && p < |pt.prods| && CanReduce(ActionEntry(pt, Last(st), t), p)
    && |pt.prods[p].rhs| < |st|
    && var base := st[..|st| - |pt.prods[p].rhs|];
       (Last(base), pt.prods[p].lhs) in pt.goto && st' == base + [pt.goto[(Last(base), pt.prods[p].lhs)]]
  }

  ghost predicate ReduceStep(pt: ParseTables, t: nat, st: seq<nat>, st': seq<nat>) {
    exists p: nat :: ReducesBy(pt, t, st, st', p)
  }

  /** A run of the machine under lookahead `t` that only reduces. */
  ghost predicate ReduceRun(pt: ParseTables, t: nat, run: seq<seq<nat>>) {
    run != [] && forall i, j :: 0 <= i < j < |run| && j == i + 1 ==> ReduceStep(pt, t, run[i], run[j])
  }

  ghost predicate Reduces(pt: ParseTables, t: nat, st: seq<nat>, st': seq<nat>) {
    exists run :: ReduceRun(pt, t, run) && run[0] == st && Last(run) == st'
  }

  /** The stacks reachable from `base` by reductions under lookahead `t`. */
  ghost function Closure(pt: ParseTables, t: nat, base: iset<seq<nat>>): iset<seq<nat>> {
    iset st, b | b in base && Reduces(pt, t, b, st) :: st
  }

  /** The stacks after shifting `t`. */
  ghost function Shifted(pt: ParseTables, t: nat, stacks: iset<seq<nat>>): iset<seq<nat>> {
    iset st | st in stacks && st != [] && ShiftDest(ActionEntry(pt, Last(st), t)).Some?
      :: st + [ShiftDest(ActionEntry(pt, Last(st), t)).value]
  }

  /** One token: any reductions, then the shift. */
  ghost function AfterToken(pt: ParseTables, t: nat, stacks: iset<seq<nat>>): iset<seq<nat>> {
    Shifted(pt, t, Closure(pt, t, stacks))
  }

  /** Everything the machine can hold after reading the first `i` tokens of `input`. */
  ghost function MachineStacks(pt: ParseTables, input: seq<nat>, i: nat): iset<seq<nat>>
    requires i <= |input|
  {
    if i == 0 then iset{[START]} else AfterToken(pt, input[i - 1], MachineStacks(pt, input, i - 1))
  }

  lemma ReducesRefl(pt: ParseTables, t: nat, st: seq<nat>)
    ensures Reduces(pt, t, st, st)
  {
    var run := [st];
    assert ReduceRun(pt, t, run) && run[0] == st && Last(run) == st;
  }

  lemma ReducesTrans(pt: ParseTables, t: nat, a: seq<nat>, b: seq<nat>, c: seq<nat>)
    requires Reduces(pt, t, a, b) && Reduces(pt, t, b, c)
    ensures Reduces(pt, t, a, c)
  {
    var r1 :| ReduceRun(pt, t, r1) && r1[0] == a && Last(r1) == b;
    var r2 :| ReduceRun(pt, t, r2) && r2[0] == b && Last(r2) == c;
    var run := r1 + r2[1..];
    forall h, i | 0 <= h < i < |run| && i == h + 1 ensures ReduceStep(pt, t, run[h], run[i]) {
      if i < |r1| {
        assert ReduceStep(pt, t, r1[h], r1[i]);
      } else {
        var j := i - |r1| + 1;
        assert run[i] == r2[j] && run[h] == r2[j - 1];
        assert ReduceStep(pt, t, r2[j - 1], r2[j]);
      }
    }
    assert ReduceRun(pt, t, run) && run[0] == a && Last(run) == c;
  }

  lemma ReducesOne(pt: ParseTables, t: nat, a: seq<nat>, b: seq<nat>, p: nat)
    requires ReducesBy(pt, t, a, b, p)
    ensures Reduces(pt, t, a, b)
  {
    var run := [a, b];
    assert ReduceStep(pt, t, a, b);
    assert ReduceRun(pt, t, run) && run[0] == a && Last(run) == b;
  }

  /** Reductions above a nonempty stack do not depend on what is below it. */
  lemma ReducesFrame(pt: ParseTables, t: nat, below: seq<nat>, a: seq<nat>, b: seq<nat>)
    requires Reduces(pt, t, a, b)
    ensures Reduces(pt, t, below + a, below + b)
  {
    var run :| ReduceRun(pt, t, run) && run[0] == a && Last(run) == b;
    var lifted := seq(|run|, i requires 0 <= i < |run| => below + run[i]);
    forall h, i | 0 <= h < i < |lifted| && i == h + 1 ensures ReduceStep(pt, t, lifted[h], lifted[i]) {
      var x, y := run[h], run[i];
      assert ReduceStep(pt, t, x, y);
      var p: nat :| ReducesBy(pt, t, x, y, p);
      var k := |pt.prods[p].rhs|;
      assert (below + x)[..|below + x| - k] == below + x[..|x| - k];
      assert ReducesBy(pt, t, below + x, below + y, p);
    }
    assert ReduceRun(pt, t, lifted) && lifted[0] == below + a && Last(lifted) == below + b;
  }

  /** A run is the identity or starts with one step. */
  lemma ReducesSplit(pt: ParseTables, t: nat, a: seq<nat>, b: seq<nat>) returns (mid: seq<nat>)
    requires Reduces(pt, t, a, b) && a != b
    ensures ReduceStep(pt, t, a, mid) && Reduces(pt, t, mid, b)
  {
    var run :| ReduceRun(pt, t, run) && run[0] == a && Last(run) == b;
    mid := run[1];
    assert ReduceStep(pt, t, run[0], run[1]);
    var rest := run[1..];
    forall h, i | 0 <= h < i < |rest| && i == h + 1 ensures ReduceStep(pt, t, rest[h], rest[i]) {
      assert ReduceStep(pt, t, run[i], run[i + 1]);
    }
    assert ReduceRun(pt, t, rest) && rest[0] == mid && Last(rest) == b;
  }

  lemma AfterTokenMonotone(pt: ParseTables, t: nat, a: iset<seq<nat>>, b: iset<seq<nat>>)
    requires a <= b
    ensures AfterToken(pt, t, a) <= AfterToken(pt, t, b)
  {
    forall st | st in Closure(pt, t, a) ensures st in Closure(pt, t, b) {
    }
  }
}
