/** The end of a parse: one parser left, with one way down to the bottom of the stack. */
module Acceptance {
  import opened Grammars
  import opened LrMachine
  import opened Gss
  import opened PathQueue
  import opened Worklist
  import opened ExactlyOnce
  import opened Derivations
  import opened Stacks
  import opened ShiftPhase

  /** End of input is shifted in one state only, which is entered from the start state only. */
  ghost predicate EofShape(g: Grammar, pt: ParseTables, afterStart: nat, last: nat) {
    && (forall s: nat :: ShiftDest(ActionEntry(pt, s, EOF)).Some? ==>
          s == afterStart && s != START && g.prods != [] && |g.prods[0].rhs| == 2
          && SymbolOf(pt, s) == Some(g.prods[0].rhs[0]) && g.prods[0].rhs[1] == T(EOF)
               && ShiftDest(ActionEntry(pt, s, EOF)).value == last)
    && (forall s: nat :: Goes(pt, s, afterStart) ==> s == START)
  }

  /** The production that finishes the parse is the only one that mentions end of input. */
  ghost predicate Augmented(g: Grammar) {
    && g.prods != [] && |g.prods[0].rhs| == 2 && g.prods[0].rhs[0].N? && g.prods[0].rhs[1] == T(EOF)
    && (forall p: nat, i: nat :: 0 < p < |g.prods| && i < |g.prods[p].rhs| ==> g.prods[p].rhs[i] != T(EOF))
  }

  /** There are no transitions but those some item asks for, and every state but the first is entered. */
  ghost predicate AutomatonTight(g: Grammar, a: Automaton) {
    && (forall s: nat, x: Symbol :: TransitionTight(g, a, s, x))
    && (forall s: nat :: START < s < |a.items| ==> Entered(a, s))
  }

  ghost predicate TransitionTight(g: Grammar, a: Automaton, s: nat, x: Symbol) {
    (s, x) in a.trans && s < |a.items| ==> Expects(g, a.items[s], x)
  }

  ghost predicate Entered(a: Automaton, s: nat) {
    exists from: nat, x: Symbol :: (from, x) in a.trans && a.trans[(from, x)] == s
  }

  /** A state that shifts end of input holds the final item and is entered from the start state only. */
  lemma EofState(g: Grammar, a: Automaton, pt: ParseTables, s: nat)
    requires AutomatonSound(g, a) && AutomatonTight(g, a) && TablesFit(g, a, pt) && Augmented(g)
    requires ShiftDest(ActionEntry(pt, s, EOF)).Some?
    ensures START < s < |a.items| && Item(0, 1) in a.items[s]
    ensures (START, g.prods[0].rhs[0]) in a.trans && a.trans[(START, g.prods[0].rhs[0])] == s
  {
    assert TransitionSound(a, s, T(EOF)) && TransitionTight(g, a, s, T(EOF));
    var it :| it in a.items[s] && AfterDot(g, it) == Some(T(EOF));
    assert StateItemSound(g, a, s, it) && it.prod == 0 && it.dot == 1;
    assert Entered(a, s);
    var from: nat, x: Symbol :| (from, x) in a.trans && a.trans[(from, x)] == s;
    assert TransitionSound(a, from, x) && KernelSound(g, a, from, x, it);
    assert StateItemSound(g, a, from, Item(0, 0));
  }

  lemma NoWayToStart(g: Grammar, a: Automaton, pt: ParseTables, u: nat)
    requires AutomatonSound(g, a) && TablesFit(g, a, pt)
    ensures !Goes(pt, u, START)
  {
    SoundAutomatonGivesValidTables(g, a, pt);
    if Goes(pt, u, START) {
      NeverBackToStart(pt, u, START);
    }
  }

  lemma TwoDiffer<A>(s: seq<A>)
    requires Distinct(s) && |s| > 1
    ensures s[0] != s[1]
  {
  }

  lemma AllSame<A>(s: seq<A>, x: A)
    requires Distinct(s) && forall i :: 0 <= i < |s| ==> s[i] == x
    ensures |s| <= 1
  {
    if |s| > 1 {
      TwoDiffer(s);
    }
  }

  /** Tables of an augmented grammar have one way to finish. */
  lemma AugmentedGivesEofShape(g: Grammar, a: Automaton, pt: ParseTables) returns (afterStart: nat, last: nat)
    requires AutomatonSound(g, a) && AutomatonTight(g, a) && TablesFit(g, a, pt) && Augmented(g)
    ensures EofShape(g, pt, afterStart, last)
  {
    if s: nat :| ShiftDest(ActionEntry(pt, s, EOF)).Some? {
      afterStart, last := s, ShiftDest(ActionEntry(pt, s, EOF)).value;
      EofState(g, a, pt, s);
      forall u: nat | ShiftDest(ActionEntry(pt, u, EOF)).Some?
        ensures u == s && u != START && SymbolOf(pt, u) == Some(g.prods[0].rhs[0])
        ensures ShiftDest(ActionEntry(pt, u, EOF)).value == last
      {
        EofState(g, a, pt, u);
      }
      forall u: nat | Goes(pt, u, s) ensures u == START {
        GoesIsTransition(g, a, pt, u, s);
        assert KernelSound(g, a, u, SymbolOf(pt, s).value, Item(0, 1));
        assert StateItemSound(g, a, u, Item(0, 0));
      }
    } else {
      afterStart, last := START, START;
      forall u: nat | Goes(pt, u, START) ensures false {
        NoWayToStart(g, a, pt, u);
      }
    }
  }

  /** Both links that the end of the parse takes for granted are unique. */
  ghost predicate UniqueTop(g: Grammar, pt: ParseTables, ns: Pool, tp: seq<nat>) {
    && |tp| == 1 && tp[0] < |ns| && |ns[tp[0]].sibs| == 1
    && ns[tp[0]].sibs[0] < |ns| && ns[ns[tp[0]].sibs[0]].sibs == [0]
    && g.prods != [] && |g.prods[0].rhs| == 2
    && SymbolOf(pt, ns[tp[0]].state) == Some(g.prods[0].rhs[1])
    && SymbolOf(pt, ns[ns[tp[0]].sibs[0]].state) == Some(g.prods[0].rhs[0])
  }

  /** After shifting end of input there is one parser, with a unique link to a node whose own
      unique link leads to the bottom. */
  lemma FinalTopIsUnique(g: Grammar, ctx: Context, w: Work, w': Work, afterStart: nat, last: nat)
    requires Shape(ctx, w) && ShiftedFrom(ctx, w, Members(w.tp), w') && ctx.token == EOF
    requires EofShape(g, ctx.pt, afterStart, last) && w'.tp != []
    ensures UniqueTop(g, ctx.pt, w'.ns, w'.tp)
  {
    var n := |w.ns|;
    FrontierAfterShift(ctx, w, Members(w.tp), w');
    forall u: nat | n <= u < |w'.ns| ensures w'.ns[u].state == last {
      assert NewTop(ctx, w'.ns, u);
      assert Linked(w'.ns, u, w'.ns[u].sibs[0]) && IsShiftLink(ctx, w, Members(w.tp), w', u, w'.ns[u].sibs[0]);
    }
    AllSame(seq(|w'.ns| - n, i requires 0 <= i < |w'.ns| - n => w'.ns[n + i].state), last);
    assert w'.tp[0] == n;
    assert |w'.ns| == n + 1 && w'.tp == [n];
    var x := OneShifter(ctx, w, w', n);
    assert w'.ns[x] == w.ns[x];
    assert ShiftDest(ActionEntry(ctx.pt, w.ns[x].state, EOF)).Some? && ShiftValid(ctx.pt, w.ns[x].state, EOF);
    OnlyBottomBelow(g, ctx, w, x, afterStart, last);
  }

  /** Only one frontier parser was in the state that shifts end of input. */
  lemma OneShifter(ctx: Context, w: Work, w': Work, u: nat) returns (x: nat)
    requires Shape(ctx, w) && ShiftedFrom(ctx, w, Members(w.tp), w') && |w.ns| <= u < |w'.ns|
    requires forall y: nat, z: nat ::
               y < |w.ns| && z < |w.ns| && ShiftOf(ctx, w.ns, y).Some? && ShiftOf(ctx, w.ns, z).Some? ==>
               w.ns[y].state == w.ns[z].state
    ensures x < |w.ns| && w'.ns[u].sibs == [x] && ShiftOf(ctx, w.ns, x) == Some(w'.ns[u].state)
  {
    assert NewTop(ctx, w'.ns, u);
    var sibs := w'.ns[u].sibs;
    x := sibs[0];
    assert Linked(w'.ns, u, x) && IsShiftLink(ctx, w, Members(w.tp), w', u, x);
    var k :| 0 <= k < |w.tp| && w.tp[k] == x;
    forall i | 0 <= i < |sibs| ensures sibs[i] == x {
      assert Linked(w'.ns, u, sibs[i]) && IsShiftLink(ctx, w, Members(w.tp), w', u, sibs[i]);
      var j :| 0 <= j < |w.tp| && w.tp[j] == sibs[i];
    }
    AllSame(sibs, x);
  }

  lemma OnlyBottomBelow(g: Grammar, ctx: Context, w: Work, x: nat, afterStart: nat, last: nat)
    requires Shape(ctx, w) && EofShape(g, ctx.pt, afterStart, last) && x < |w.ns|
    requires ShiftDest(ActionEntry(ctx.pt, w.ns[x].state, EOF)).Some?
    ensures w.ns[x].sibs == [0]
  {
    assert NodeOK(ctx.pt, w.ns, 0) && NodeOK(ctx.pt, w.ns, x);
    forall i | 0 <= i < |w.ns[x].sibs| ensures w.ns[x].sibs[i] == 0 {
      var y := w.ns[x].sibs[i];
      assert Linked(w.ns, x, y) && LinkOK(ctx.pt, w.ns, x, y);
      OnlyBottomStarts(ctx, w, y);
    }
    AllSame(w.ns[x].sibs, 0);
  }

  lemma NeverBackToStart(pt: ParseTables, s: nat, u: nat)
    requires ValidTables(pt) && Goes(pt, s, u)
    ensures u > START
  {
    match SymbolOf(pt, u)
    case Some(T(t)) => assert ShiftValid(pt, s, t);
    case Some(N(b)) => assert GotoValid(pt, s, b);
  }

  /** The start state is never entered, so only the bottom node is in it. */
  lemma OnlyBottomStarts(ctx: Context, w: Work, y: nat)
    requires Shape(ctx, w) && y < |w.ns| && w.ns[y].state == START
    ensures y == 0
  {
    assert NodeOK(ctx.pt, w.ns, y);
    if y > 0 {
      var z := w.ns[y].sibs[0];
      assert Linked(w.ns, y, z) && LinkOK(ctx.pt, w.ns, y, z);
      NeverBackToStart(ctx.pt, w.ns[z].state, w.ns[y].state);
    }
  }
}
