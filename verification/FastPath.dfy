/** Tables generated from a grammar without cycles: the fast path halts on every token. */
module FastPath {
  import opened Grammars
  import opened LrMachine
  import opened Derivability
  import opened NontermOrder
  import opened FiniteSets
  import opened ItemClosure
  import opened LrItemSets
  import opened LrConstruction
  import opened LrAutomaton
  import opened RealLookaheads
  import opened StackLoops

  // ---------------------------------------------------------------- the fast path halts

  /** Every symbol above the first state is a nonterminal that vanishes. */
  ghost predicate NothingAbove(g: Grammar, pt: ParseTables, u: seq<nat>) {
    forall i :: 0 < i < |u| ==> SymbolOf(pt, u[i]).Some? && Nullable(g, SymbolOf(pt, u[i]).value)
  }

  /** The next reduction pops the first state of `u`, or there is none. */
  ghost predicate PopsFirst(pt: ParseTables, t: nat, u: seq<nat>)
    requires u != []
  {
    forall p: nat :: ActionEntry(pt, Last(u), t) == Reduce(p) && p < |pt.prods| ==> |u| <= |pt.prods[p].rhs|
  }

  /** Above a stack from which the token can be shifted, the fast path follows the machine's run, until
      it halts or pops the state it started from, whatever lies below. */
  lemma {:induction false} FollowToPop(g: Grammar, pt: ParseTables, t: nat, b: seq<nat>, u: seq<nat>, c: seq<nat>,
                                       run: seq<seq<nat>>)
      returns (u': seq<nat>, k: nat)
    requires ValidTables(pt) && pt.prods == g.prods && StackPath(pt, b + u) && u != [] && NothingAbove(g, pt, u)
    requires ReduceRun(pt, t, run) && run[0] == c + u
    requires Last(run) != [] && ShiftDest(ActionEntry(pt, Last(Last(run)), t)).Some?
    ensures u' != [] && u'[0] == u[0] && StackPath(pt, b + u') && NothingAbove(g, pt, u') && PopsFirst(pt, t, u')
    ensures forall n: nat :: Halts(pt, t, b + u', n) ==> Halts(pt, t, b + u, n + k)
    decreases |run|
  {
    match ActionEntry(pt, Last(u), t)
    case Reduce(p) =>
      assert CanReduce(ActionEntry(pt, Last(u), t), p);
      if |pt.prods[p].rhs| < |u| {
        var v := ReduceAbove(g, pt, t, b, u, c, p);
        assert |run| > 1 && ReduceStep(pt, t, run[0], run[1]);
        assert run[1] == c + v;
        RestOfRun(pt, t, run);
        u', k := FollowToPop(g, pt, t, b, v, c, run[1..]);
        k := k + 1;
      } else {
        u', k := u, 0;
      }
    case _ =>
      u', k := u, 0;
  }

  lemma RestOfRun(pt: ParseTables, t: nat, run: seq<seq<nat>>)
    requires ReduceRun(pt, t, run) && |run| > 1
    ensures ReduceRun(pt, t, run[1..])
  {
    var rest := run[1..];
    forall i, j | 0 <= i < j < |rest| && j == i + 1 ensures ReduceStep(pt, t, rest[i], rest[j]) {
      assert ReduceStep(pt, t, run[i + 1], run[j + 1]);
    }
  }

  /** A reduction that leaves the first state of `u` alone. */
  lemma ReduceAbove(g: Grammar, pt: ParseTables, t: nat, b: seq<nat>, u: seq<nat>, c: seq<nat>, p: nat)
      returns (v: seq<nat>)
    requires ValidTables(pt) && pt.prods == g.prods && StackPath(pt, b + u) && u != [] && NothingAbove(g, pt, u)
    requires ActionEntry(pt, Last(u), t) == Reduce(p) && p < |pt.prods| && |pt.prods[p].rhs| < |u|
    ensures v != [] && v[0] == u[0] && StackPath(pt, b + v) && NothingAbove(g, pt, v)
    ensures Next(pt, t, b + u) == Some(b + v)
    ensures forall st :: ReduceStep(pt, t, c + u, st) ==> st == c + v
  {
    NextOnPath(pt, t, b + u, p);
    NextIsPath(pt, t, b + u);
    var k := |u| - |pt.prods[p].rhs|;
    var x := pt.goto[(u[k - 1], pt.prods[p].lhs)];
    v := u[..k] + [x];
    TakePart(b, u, k);
    assert b + v == b + u[..k] + [x];
    assert GotoValid(pt, u[k - 1], pt.prods[p].lhs);
    LhsVanishes(g, pt, u, k, p);
    OnlyStep(pt, t, u, c, p, k);
  }

  lemma OnlyStep(pt: ParseTables, t: nat, u: seq<nat>, c: seq<nat>, p: nat, k: nat)
    requires u != [] && ActionEntry(pt, Last(u), t) == Reduce(p) && p < |pt.prods| && 0 < k
    requires k + |pt.prods[p].rhs| == |u|
    requires (u[k - 1], pt.prods[p].lhs) in pt.goto
    ensures forall st :: ReduceStep(pt, t, c + u, st) ==> st == c + (u[..k] + [pt.goto[(u[k - 1], pt.prods[p].lhs)]])
  {
    TakePart(c, u, k);
    var x := pt.goto[(u[k - 1], pt.prods[p].lhs)];
    assert c + (u[..k] + [x]) == c + u[..k] + [x];
  }

  lemma TakePart(b: seq<nat>, u: seq<nat>, k: nat)
    requires 0 < k <= |u|
    ensures (b + u)[..|b| + k] == b + u[..k] && Last(b + u[..k]) == u[k - 1] && Last(b + u) == Last(u)
    ensures forall i :: 0 <= i < |u| ==> (b + u)[|b| + i] == u[i]
  {
  }

  lemma LhsVanishes(g: Grammar, pt: ParseTables, u: seq<nat>, k: nat, p: nat)
    requires p < |g.prods| && 0 < k && k + |g.prods[p].rhs| == |u| && NothingAbove(g, pt, u)
    requires forall i :: k <= i < |u| ==> SymbolOf(pt, u[i]) == Some(g.prods[p].rhs[i - k])
    ensures Nullable(g, N(g.prods[p].lhs))
  {
    var rhs := g.prods[p].rhs;
    forall i | 0 <= i < |rhs| ensures Nullable(g, rhs[i]) {
      assert SymbolOf(pt, u[k + i]) == Some(rhs[i]);
    }
    NullableBy(g, p);
  }

  // ---------------------------------------------------------------- how often a state can be replaced

  /** How many nonterminals derive the symbol of the state alone; more for any other symbol. */
  ghost function Rank(g: Grammar, x: Option<Symbol>): nat {
    match x
    case Some(N(b)) => |Derivers(g, b)|
    case _ => g.numNonterms + 1
  }

  ghost function Derivers(g: Grammar, b: nat): set<nat> {
    set a: nat | a in NatsBelow(g.numNonterms) && DerivesAlone(g, a, b)
  }

  /** In an acyclic grammar a nonterminal that replaces a symbol alone is derived by fewer. */
  lemma RankFalls(g: Grammar, p: nat)
    requires ProperGrammar(g) && Acyclic(g) && p < |g.prods| && g.prods[p].rhs != []
    requires forall i :: 0 < i < |g.prods[p].rhs| ==> Nullable(g, g.prods[p].rhs[i])
    ensures Rank(g, Some(N(g.prods[p].lhs))) < Rank(g, Some(g.prods[p].rhs[0]))
  {
    NatsBelowSize(g.numNonterms);
    var lhs := g.prods[p].lhs;
    assert ProperProduction(g, g.prods[p]);
    SubsetSize(Derivers(g, lhs), NatsBelow(g.numNonterms));
    if g.prods[p].rhs[0].N? {
      var b := g.prods[p].rhs[0].n;
      assert UnitStepBy(g, lhs, b, p, 0) && UnitStep(g, lhs, b);
      DerivesRefl(g, b);
      DerivesOne(g, lhs, b);
      forall a | a in Derivers(g, lhs) ensures a in Derivers(g, b) - {b} {
        DerivesTrans(g, a, lhs, b);
        assert a == b ==> Cyclic(g, lhs);
      }
      SubsetSize(Derivers(g, lhs), Derivers(g, b) - {b});
      assert b in Derivers(g, b);
    }
  }

  /** On any stack the fast path stops: each state is popped or, finitely often, replaced. */
  lemma {:induction false} StackHalts(g: Grammar, info: Info, lr: LrGraph, pt: ParseTables, t: nat, st: seq<nat>)
      returns (n: nat)
    requires Generated(g, info, lr, pt) && ValidTables(pt) && ProperGrammar(g) && Acyclic(g) && StackPath(pt, st)
    ensures Halts(pt, t, st, n)
    decreases |st|, Rank(g, SymbolOf(pt, Last(st)))
  {
    var b, u := st[..|st| - 1], [Last(st)];
    assert st == b + u;
    var u', k := ToPop(g, info, lr, pt, t, b, u);
    var top := b + u';
    if Next(pt, t, top).None? {
      assert Halts(pt, t, top, 0);
      n := k;
    } else {
      var p := ActionEntry(pt, Last(top), t).prod;
      PopFalls(g, pt, t, b, u', p);
      var st' := Next(pt, t, top).value;
      var m := StackHalts(g, info, lr, pt, t, st');
      assert Halts(pt, t, top, m + 1);
      n := m + 1 + k;
    }
  }

  /** Up to the moment when the state on top of the stack is popped. */
  lemma ToPop(g: Grammar, info: Info, lr: LrGraph, pt: ParseTables, t: nat, b: seq<nat>, u: seq<nat>)
      returns (u': seq<nat>, k: nat)
    requires Generated(g, info, lr, pt) && ValidTables(pt) && StackPath(pt, b + u) && |u| == 1
    ensures u' != [] && u'[0] == u[0] && StackPath(pt, b + u') && NothingAbove(g, pt, u') && PopsFirst(pt, t, u')
    ensures forall n: nat :: Halts(pt, t, b + u', n) ==> Halts(pt, t, b + u, n + k)
  {
    u', k := u, 0;
    match ActionEntry(pt, u[0], t)
    case Reduce(p) =>
      assert CanReduce(ActionEntry(pt, u[0], t), p);
      if pt.prods[p].rhs == [] {
        assert ReduceFits(g, ToAutomaton(lr), pt, u[0], t, p);
        var c, run := RunFrom(g, info, lr, pt, u[0], p, t);
        u', k := FollowToPop(g, pt, t, b, u, c, run);
      }
    case _ =>
  }

  /** A lookahead of an empty production's item comes up on a stack from which it can be shifted. */
  lemma RunFrom(g: Grammar, info: Info, lr: LrGraph, pt: ParseTables, s: nat, p: nat, t: nat)
      returns (c: seq<nat>, run: seq<seq<nat>>)
    requires Generated(g, info, lr, pt) && s < |lr.sets| && p < |g.prods| && g.prods[p].rhs == []
    requires Item(p, 0) in All(lr.sets[s]) && t in All(lr.sets[s])[Item(p, 0)] && CanReduce(ActionEntry(pt, s, t), p)
    ensures ReduceRun(pt, t, run) && run[0] == c + [s]
    ensures Last(run) != [] && ShiftDest(ActionEntry(pt, Last(Last(run)), t)).Some?
  {
    LookaheadsAreRealised(g, info, lr, pt, s, Item(p, 0), t);
    c, run := RealisedRun(g, pt, s, p, t);
  }

  lemma RealisedRun(g: Grammar, pt: ParseTables, s: nat, p: nat, t: nat) returns (c: seq<nat>, run: seq<seq<nat>>)
    requires pt.prods == g.prods && p < |g.prods| && g.prods[p].rhs == [] && Realised(g, pt, s, Item(p, 0), t)
    requires CanReduce(ActionEntry(pt, s, t), p)
    ensures ReduceRun(pt, t, run) && run[0] == c + [s]
    ensures Last(run) != [] && ShiftDest(ActionEntry(pt, Last(Last(run)), t)).Some?
  {
    var st: seq<nat> :| st != [] && Last(st) == s && RealisedBy(g, pt, st, Item(p, 0), t);
    EmptyIsReduced(g, pt, st, p, t);
    run := RunOf(pt, t, st);
    c := st[..|st| - 1];
    assert st == c + [s];
  }

  lemma EmptyIsReduced(g: Grammar, pt: ParseTables, st: seq<nat>, p: nat, t: nat)
    requires pt.prods == g.prods && p < |g.prods| && g.prods[p].rhs == [] && RealisedBy(g, pt, st, Item(p, 0), t)
    requires CanReduce(ActionEntry(pt, Last(st), t), p)
    ensures Viable(pt, t, st)
  {
    assert st[..|st|] == st;
    var st' := st + [pt.goto[(Last(st), g.prods[p].lhs)]];
    assert ReducesBy(pt, t, st, st', p);
    ReducesOne(pt, t, st, st', p);
    ViableBefore(pt, t, st, st');
  }

  lemma RunOf(pt: ParseTables, t: nat, st: seq<nat>) returns (run: seq<seq<nat>>)
    requires Viable(pt, t, st)
    ensures ReduceRun(pt, t, run) && run[0] == st
    ensures Last(run) != [] && ShiftDest(ActionEntry(pt, Last(Last(run)), t)).Some?
  {
    var goal :| Reduces(pt, t, st, goal) && goal != [] && ShiftDest(ActionEntry(pt, Last(goal), t)).Some?;
    run :| ReduceRun(pt, t, run) && run[0] == st && Last(run) == goal;
  }

  /** Popping the first state of `u` makes the stack shorter, or replaces the state by one of lower rank. */
  lemma PopFalls(g: Grammar, pt: ParseTables, t: nat, b: seq<nat>, u: seq<nat>, p: nat)
    requires ValidTables(pt) && pt.prods == g.prods && ProperGrammar(g) && Acyclic(g)
    requires StackPath(pt, b + u) && u != [] && NothingAbove(g, pt, u) && PopsFirst(pt, t, u)
    requires ActionEntry(pt, Last(b + u), t) == Reduce(p) && Next(pt, t, b + u).Some?
    ensures var st' := Next(pt, t, b + u).value;
            && StackPath(pt, st')
            && (|st'| <= |b| || (|st'| == |b| + 1 && Rank(g, SymbolOf(pt, Last(st'))) < Rank(g, SymbolOf(pt, u[0]))))
  {
    NextOnPath(pt, t, b + u, p);
    NextIsPath(pt, t, b + u);
    var k := |b + u| - |g.prods[p].rhs|;
    assert GotoValid(pt, (b + u)[k - 1], g.prods[p].lhs);
    if k == |b| {
      forall i | 0 <= i < |u| ensures SymbolOf(pt, u[i]) == Some(g.prods[p].rhs[i]) {
        assert (b + u)[k + i] == u[i];
      }
      ReplacedByLower(g, pt, u, p);
    }
  }

  lemma ReplacedByLower(g: Grammar, pt: ParseTables, u: seq<nat>, p: nat)
    requires ProperGrammar(g) && Acyclic(g) && u != [] && NothingAbove(g, pt, u)
    requires p < |g.prods| && |g.prods[p].rhs| == |u|
    requires forall i :: 0 <= i < |u| ==> SymbolOf(pt, u[i]) == Some(g.prods[p].rhs[i])
    ensures Rank(g, Some(N(g.prods[p].lhs))) < Rank(g, SymbolOf(pt, u[0]))
  {
    forall i | 0 < i < |u| ensures Nullable(g, g.prods[p].rhs[i]) {
      assert SymbolOf(pt, u[i]) == Some(g.prods[p].rhs[i]);
    }
    RankFalls(g, p);
  }

  /** The tables of a grammar without cycles never send the fast path round in circles. */
  lemma FastPathHalts(g: Grammar, info: Info, lr: LrGraph, pt: ParseTables)
    requires Generated(g, info, lr, pt) && ValidTables(pt) && ProperGrammar(g) && Acyclic(g)
    ensures AlwaysHalts(pt)
  {
    forall st: seq<nat>, t: nat | StackPath(pt, st) ensures HaltsAtLast(pt, t, st) {
      var n := StackHalts(g, info, lr, pt, t, st);
    }
  }
}
