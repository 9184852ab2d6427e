/** Filling the parse tables from the finished item sets, with conflicts resolved by declaration. */
module TableBuilding {
  import opened Grammars
  import opened LrMachine
  import opened Acceptance
  import opened Language
  import opened Derivability
  import opened FirstSets
  import opened PathQueue
  import opened ItemClosure
  import opened LrItemSets
  import opened LrConstruction
  import opened LrAutomaton
  import opened Gss
  import opened ConflictResolution

  /** The item A -> alpha . of production `p` is there with `t` in its lookahead. */
  predicate CanReduceBy(g: Grammar, items: Items, t: nat, p: nat) {
    p < |g.prods| && Item(p, |g.prods[p].rhs|) in items && t in items[Item(p, |g.prods[p].rhs|)]
  }

  function ActionOf(acts: seq<Action>): Action {
    if |acts| >= 2 then Ambig(acts) else if |acts| == 1 then acts[0] else Error
  }

  /** The shift, if it is left, and then the reductions. */
  function CellOf(r: Choice): Action {
    ActionOf((if r.shift.Some? then [Shift(r.shift.value)] else []) + Reductions(r.reds))
  }

  function Reductions(reds: seq<nat>): (acts: seq<Action>)
    ensures |acts| == |reds| && forall i :: 0 <= i < |reds| ==> acts[i] == Reduce(reds[i])
  {
    seq(|reds|, i requires 0 <= i < |reds| => Reduce(reds[i]))
  }

  lemma ReductionsHave(reds: seq<nat>, p: nat)
    ensures Reduce(p) in Reductions(reds) <==> p in reds
  {
    if p in reds {
      var i :| 0 <= i < |reds| && reds[i] == p;
      assert Reductions(reds)[i] == Reduce(p);
    }
  }

  lemma CellMeans(r: Choice)
    requires Distinct(r.reds)
    ensures WellFormedCell(CellOf(r)) && ShiftDest(CellOf(r)) == r.shift
    ensures forall p: nat :: CanReduce(CellOf(r), p) <==> p in r.reds
  {
    var reds := Reductions(r.reds);
    forall p: nat ensures Reduce(p) in reds <==> p in r.reds {
      ReductionsHave(r.reds, p);
    }
    if r.shift.None? {
      assert [] + reds == reds;
      CellOfReductions(reds);
    } else {
      CellWithShift(r.shift.value, reds);
    }
  }

  lemma CellOfReductions(reds: seq<Action>)
    requires (forall i :: 0 <= i < |reds| ==> reds[i].Reduce?)
    requires forall i, j :: 0 <= i < j < |reds| ==> reds[i] != reds[j]
    ensures WellFormedCell(ActionOf(reds)) && ShiftDest(ActionOf(reds)) == None
    ensures forall p: nat :: CanReduce(ActionOf(reds), p) <==> Reduce(p) in reds
  {
    NoShift(reds);
    if |reds| == 1 {
      assert reds == [reds[0]];
    }
  }

  lemma CellWithShift(s: nat, reds: seq<Action>)
    requires (forall i :: 0 <= i < |reds| ==> reds[i].Reduce?)
    requires forall i, j :: 0 <= i < j < |reds| ==> reds[i] != reds[j]
    ensures WellFormedCell(ActionOf([Shift(s)] + reds)) && ShiftDest(ActionOf([Shift(s)] + reds)) == Some(s)
    ensures forall p: nat :: CanReduce(ActionOf([Shift(s)] + reds), p) <==> Reduce(p) in reds
  {
    var acts := [Shift(s)] + reds;
    if reds == [] {
      assert acts == [Shift(s)];
    }
    forall p: nat ensures Reduce(p) in acts <==> Reduce(p) in reds {
    }
  }

  lemma {:induction false} NoShift(acts: seq<Action>)
    requires forall i :: 0 <= i < |acts| ==> !acts[i].Shift?
    ensures FirstShift(acts) == None
  {
    if acts != [] {
      NoShift(acts[1..]);
    }
  }

  /** The possible reductions of a state, each once, in any order. */
  ghost predicate ListsPossible(g: Grammar, items: Items, t: nat, reds: seq<nat>) {
    Distinct(reds) && forall p: nat :: p in reds <==> CanReduceBy(g, items, t, p)
  }

  /** The productions whose completed item is in the state, in the order in which the items come. */
  method PossibleReductions(g: Grammar, items: Items, t: nat) returns (reds: seq<nat>)
    ensures ListsPossible(g, items, t, reds) && ProdsInGrammar(g, reds)
  {
    reds := [];
    var todo := items.Keys;
    while todo != {}
      invariant todo <= items.Keys && Distinct(reds) && ProdsInGrammar(g, reds)
      invariant forall p: nat :: p in reds <==> CanReduceBy(g, items, t, p) && Item(p, |g.prods[p].rhs|) !in todo
      decreases todo
    {
      var it :| it in todo;
      todo := todo - {it};
      if it.prod < |g.prods| && it.dot == |g.prods[it.prod].rhs| && t in items[it] {
        assert it == Item(it.prod, |g.prods[it.prod].rhs|);
        reds := reds + [it.prod];
      }
    }
  }

  /** What may be in the cell of a state and a terminal: what the declarations leave of the shift and the
      possible reductions in some order. */
  ghost predicate Resolved(g: Grammar, d: Declarations, items: Items, t: nat, shift: Option<nat>, allowAmbig: bool,
                           a: Action) {
    exists reds: seq<nat>, r: Choice :: ResolvedFrom(g, d, items, t, shift, allowAmbig, a, reds, r)
  }

  ghost predicate ResolvedFrom(g: Grammar, d: Declarations, items: Items, t: nat, shift: Option<nat>, allowAmbig: bool,
                               a: Action, reds: seq<nat>, r: Choice) {
    && ListsPossible(g, items, t, reds)
    && Resolves(g, d, items.Keys, t, Choice(shift, reds), allowAmbig, r) && a == CellOf(r)
  }

  /** The actions of one state under one lookahead. */
  method FillCell(g: Grammar, d: Declarations, items: Items, shift: Option<nat>, t: nat, allowAmbig: bool)
      returns (a: Action)
    requires SupersetsEnd(d)
    ensures Resolved(g, d, items, t, shift, allowAmbig, a)
  {
    var reds := PossibleReductions(g, items, t);
    var r := ResolveConflicts(g, d, items.Keys, t, Choice(shift, reds), allowAmbig);
    a := CellOf(r);
    assert ResolvedFrom(g, d, items, t, shift, allowAmbig, a, reds, r);
  }

  /** A cell holds possible actions only, and all of them if nothing is declared. */
  lemma ResolvedMeans(g: Grammar, d: Declarations, items: Items, t: nat, shift: Option<nat>, allowAmbig: bool,
                      a: Action)
    requires Resolved(g, d, items, t, shift, allowAmbig, a)
    ensures WellFormedCell(a) && (ShiftDest(a) == None || ShiftDest(a) == shift)
    ensures forall p: nat :: CanReduce(a, p) ==> CanReduceBy(g, items, t, p)
    ensures Undeclared(d) && allowAmbig ==> ShiftDest(a) == shift && forall p: nat :: CanReduceBy(g, items, t, p) ==>
              CanReduce(a, p)
    ensures !allowAmbig ==> !a.Ambig?
  {
    var reds: seq<nat>, r: Choice :| ResolvedFrom(g, d, items, t, shift, allowAmbig, a, reds, r);
    OnlyRemoves(g, d, items.Keys, t, Choice(shift, reds), allowAmbig, r);
    CellMeans(r);
    if Undeclared(d) && allowAmbig {
      UndeclaredKeepsAll(g, d, items.Keys, t, Choice(shift, reds), r);
    }
  }

  function ShiftFrom(a: Automaton, s: nat, t: nat): Option<nat> {
    if (s, T(t)) in a.trans then Some(a.trans[(s, T(t))]) else None
  }

  /** The entry of state `s` and terminal `t` is what is left of what the item set says. */
  ghost predicate CellFits(g: Grammar, d: Declarations, allowAmbig: bool, a: Automaton, action: map<(nat, nat), Action>,
                           s: nat, t: nat) {
    s < |a.items| && (s, t) in action && Resolved(g, d, a.items[s], t, ShiftFrom(a, s, t), allowAmbig, action[(s, t)])
  }

  ghost predicate GotoFits(a: Automaton, goto: map<(nat, nat), nat>, s: nat, b: nat) {
    ((s, b) in goto <==> (s, N(b)) in a.trans) && ((s, b) in goto ==> goto[(s, b)] == a.trans[(s, N(b))])
  }

  method FillActionRow(g: Grammar, d: Declarations, allowAmbig: bool, a: Automaton, s: nat,
                       action0: map<(nat, nat), Action>)
      returns (action: map<(nat, nat), Action>)
    requires SupersetsEnd(d) && s < |a.items| && forall e :: e in action0 ==> e.0 < s
    ensures forall e :: e in action <==> e in action0 || (e.0 == s && e.1 < g.numTerms)
    ensures forall e :: e in action0 ==> action[e] == action0[e]
    ensures forall t: nat :: t < g.numTerms ==> CellFits(g, d, allowAmbig, a, action, s, t)
  {
    action := action0;
    for termId := 0 to g.numTerms
      invariant forall e :: e in action <==> e in action0 || (e.0 == s && e.1 < termId)
      invariant forall e :: e in action0 ==> action[e] == action0[e]
      invariant forall t: nat :: t < termId ==> CellFits(g, d, allowAmbig, a, action, s, t)
    {
      var cellAction := FillCell(g, d, a.items[s], ShiftFrom(a, s, termId), termId, allowAmbig);
      ghost var was := action;
      action := action[(s, termId) := cellAction];
      CellAdded(g, d, allowAmbig, a, was, action, s, termId);
    }
  }

  lemma CellAdded(g: Grammar, d: Declarations, allowAmbig: bool, a: Automaton, was: map<(nat, nat), Action>,
                  action: map<(nat, nat), Action>, s: nat, n: nat)
    requires forall t: nat :: t < n ==> CellFits(g, d, allowAmbig, a, was, s, t)
    requires (s, n) in action && action == was[(s, n) := action[(s, n)]]
    requires s < |a.items| && Resolved(g, d, a.items[s], n, ShiftFrom(a, s, n), allowAmbig, action[(s, n)])
    ensures forall t: nat :: t < n + 1 ==> CellFits(g, d, allowAmbig, a, action, s, t)
  {
    forall t: nat | t < n + 1 ensures CellFits(g, d, allowAmbig, a, action, s, t) {
      if t < n {
        assert CellFits(g, d, allowAmbig, a, was, s, t);
      }
    }
  }

  method FillGotoRow(g: Grammar, a: Automaton, s: nat, goto0: map<(nat, nat), nat>) returns (goto: map<(nat, nat), nat>)
    requires forall e :: e in goto0 ==> e.0 < s
    ensures forall e :: e in goto && e.0 != s ==> e in goto0
    ensures forall e :: e in goto0 ==> e in goto && goto[e] == goto0[e]
    ensures forall b: nat :: b < g.numNonterms ==> GotoFits(a, goto, s, b)
    ensures forall e :: e in goto && e.0 == s ==> e.1 < g.numNonterms
  {
    goto := goto0;
    for nontermId := 0 to g.numNonterms
      invariant forall e :: e in goto && e.0 != s ==> e in goto0
      invariant forall e :: e in goto0 ==> e in goto && goto[e] == goto0[e]
      invariant forall b: nat :: b < nontermId ==> GotoFits(a, goto, s, b)
      invariant forall e :: e in goto && e.0 == s ==> e.1 < nontermId
    {
      ghost var before := goto;
      if (s, N(nontermId)) in a.trans {
        goto := goto[(s, nontermId) := a.trans[(s, N(nontermId))]];
      }
      forall b: nat | b < nontermId + 1 ensures GotoFits(a, goto, s, b) {
        assert b < nontermId ==> GotoFits(a, before, s, b);
      }
    }
  }

  /** The symbol before the dot of a kernel item; the start state has none. */
  method StateSymbol(g: Grammar, kernel: Items) returns (x: Option<Symbol>)
    requires forall it :: it in kernel ==> ItemIn(g, it)
    ensures x.None? ==> forall it :: it in kernel ==> it.dot == 0
    ensures x.Some? ==> exists it :: it in kernel && it.dot > 0 && x == AfterDot(g, Item(it.prod, it.dot - 1))
  {
    var todo := kernel.Keys;
    while todo != {}
      invariant todo <= kernel.Keys && forall it :: it in kernel && it !in todo ==> it.dot == 0
      decreases todo
    {
      var it :| it in todo;
      if it.dot > 0 {
        return Some(g.prods[it.prod].rhs[it.dot - 1]);
      }
      todo := todo - {it};
    }
    return None;
  }

  /** All kernel items of a state have the same symbol before the dot: the one it is entered by. */
  lemma EnteringSymbol(g: Grammar, info: Info, lr: LrGraph, s: nat, x: Symbol, it: Item)
    requires Built(g, info, lr) && (s, x) in lr.trans && lr.trans[(s, x)] < |lr.sets|
    requires it in lr.sets[lr.trans[(s, x)]].kernel
    ensures it.dot > 0 && AfterDot(g, Item(it.prod, it.dot - 1)) == Some(x)
  {
    assert TransOK(g, lr, s, x);
    MovedBack(g, All(lr.sets[s]).Keys, x, it);
  }

  lemma EnteringItem(g: Grammar, info: Info, lr: LrGraph, s: nat, x: Symbol) returns (it: Item)
    requires Built(g, info, lr) && (s, x) in lr.trans
    ensures lr.trans[(s, x)] < |lr.sets| && it in lr.sets[lr.trans[(s, x)]].kernel && it.dot > 0
  {
    assert TransOK(g, lr, s, x);
    it :| it in lr.sets[lr.trans[(s, x)]].kernel;
    EnteringSymbol(g, info, lr, s, x, it);
  }

  /** Terminals and nonterminals after dots exist. */
  lemma TransInRange(g: Grammar, info: Info, lr: LrGraph, s: nat, x: Symbol)
    requires Built(g, info, lr) && ProperGrammar(g) && ProperTerminals(g) && (s, x) in lr.trans
    ensures s < |lr.sets| && if x.T? then x.t < g.numTerms else x.n < g.numNonterms
  {
    var it := Asker(g, info, lr, s, x);
    RhsInRange(g, it.prod);
    assert g.prods[it.prod].rhs[it.dot] == x;
  }

  lemma Asker(g: Grammar, info: Info, lr: LrGraph, s: nat, x: Symbol) returns (it: Item)
    requires Built(g, info, lr) && (s, x) in lr.trans
    ensures s < |lr.sets| && ItemIn(g, it) && AfterDot(g, it) == Some(x)
  {
    assert TransOK(g, lr, s, x);
    var m :| m in MovedCore(g, All(lr.sets[s]).Keys, x);
    MovedBack(g, All(lr.sets[s]).Keys, x, m);
    it := Item(m.prod, m.dot - 1);
  }

  /** State `u` is entered by `x`; the start state is not entered. */
  ghost predicate EnteredBy(lr: LrGraph, u: nat, x: Option<Symbol>) {
    && (u == START ==> x == None)
    && forall s: nat, y: Symbol :: (s, y) in lr.trans && lr.trans[(s, y)] == u ==> x == Some(y)
  }

  lemma SymbolFound(g: Grammar, info: Info, lr: LrGraph, u: nat, x: Option<Symbol>)
    requires Built(g, info, lr) && u < |lr.sets|
    requires x.None? ==> forall it :: it in lr.sets[u].kernel ==> it.dot == 0
    requires x.Some? ==>
               exists it :: it in lr.sets[u].kernel && it.dot > 0 && x == AfterDot(g, Item(it.prod, it.dot - 1))
    ensures EnteredBy(lr, u, x)
  {
    forall it | it in lr.sets[START].kernel ensures it.dot == 0 {
      assert KernelItemOK(g, lr.sets[START], true, it);
    }
    forall s: nat, y: Symbol | (s, y) in lr.trans && lr.trans[(s, y)] == u ensures x == Some(y) {
      var i := EnteringItem(g, info, lr, s, y);
      if x.Some? {
        var it :| it in lr.sets[u].kernel && it.dot > 0 && x == AfterDot(g, Item(it.prod, it.dot - 1));
        EnteringSymbol(g, info, lr, s, y, it);
      }
    }
  }

  ghost predicate SymbolFits(lr: LrGraph, symbol: map<nat, Symbol>, u: nat) {
    EnteredBy(lr, u, if u in symbol then Some(symbol[u]) else None)
  }

  /** The symbols that the states are entered by. */
  ghost predicate SymbolsFit(lr: LrGraph, symbols: seq<Option<Symbol>>) {
    |symbols| == |lr.sets| && forall u: nat :: u < |symbols| ==> EnteredBy(lr, u, symbols[u])
  }

  /** The symbol of each state, as the tables have it. */
  function StateSymbols(pt: ParseTables): seq<Option<Symbol>> {
    seq(pt.numStates, u requires 0 <= u < pt.numStates => SymbolOf(pt, u))
  }

  /** The rows of the states below `n` are filled. */
  ghost predicate RowsFilled(g: Grammar, d: Declarations, allowAmbig: bool, info: Info, lr: LrGraph, pt: ParseTables,
                             n: nat) {
    && (forall e :: e in pt.action <==> e.0 < n && e.1 < g.numTerms)
    && (forall e :: e in pt.action ==> CellFits(g, d, allowAmbig, ToAutomaton(lr), pt.action, e.0, e.1))
    && (forall e :: e in pt.goto ==> e.0 < n && e.1 < g.numNonterms)
    && (forall s: nat, b: nat :: s < n && b < g.numNonterms ==> GotoFits(ToAutomaton(lr), pt.goto, s, b))
    && (forall u: nat :: u < n ==> SymbolFits(lr, pt.symbol, u))
    && (forall u :: u in pt.symbol ==> u < n)
  }

  /** Every cell of both tables, state by state. */
  method ComputeParseTables(g: Grammar, d: Declarations, allowAmbig: bool, lr: LrGraph, order: map<nat, nat>,
                            ghost info: Info)
      returns (pt: ParseTables)
    requires Finished(g, info, lr) && ProperGrammar(g) && ProperTerminals(g) && SupersetsEnd(d)
    ensures pt.order == order && TablesFit(g, ToAutomaton(lr), pt) && SymbolsFit(lr, StateSymbols(pt))
    ensures forall s: nat, t: nat :: s < |lr.sets| && t < g.numTerms ==>
              CellFits(g, d, allowAmbig, ToAutomaton(lr), pt.action, s, t)
    ensures Undeclared(d) && allowAmbig ==> TablesKeepAll(g, ToAutomaton(lr), pt)
  {
    var a := ToAutomaton(lr);
    pt := ParseTables(g.prods, |lr.sets|, map[], map[], map[], order);
    for s := 0 to |lr.sets|
      invariant pt.prods == g.prods && pt.numStates == |lr.sets| && pt.order == order
      invariant RowsFilled(g, d, allowAmbig, info, lr, pt, s)
    {
      var action := FillActionRow(g, d, allowAmbig, a, s, pt.action);
      var goto := FillGotoRow(g, a, s, pt.goto);
      forall it | it in lr.sets[s].kernel ensures ItemIn(g, it) {
        assert KernelItemOK(g, lr.sets[s], s == START, it);
      }
      var x := StateSymbol(g, lr.sets[s].kernel);
      var symbol := if x.Some? then pt.symbol[s := x.value] else pt.symbol;
      SymbolFound(g, info, lr, s, x);
      RowAdded(g, d, allowAmbig, info, lr, pt, s, action, goto, symbol);
      pt := pt.(action := action, goto := goto, symbol := symbol);
    }
    FilledTablesFit(g, d, allowAmbig, info, lr, pt);
    FilledSymbolsFit(lr, pt);
  }

  lemma FilledSymbolsFit(lr: LrGraph, pt: ParseTables)
    requires pt.numStates == |lr.sets| && forall u: nat :: u < |lr.sets| ==> SymbolFits(lr, pt.symbol, u)
    ensures SymbolsFit(lr, StateSymbols(pt))
  {
    forall u: nat | u < |lr.sets| ensures EnteredBy(lr, u, StateSymbols(pt)[u]) {
      assert SymbolFits(lr, pt.symbol, u);
    }
  }

  lemma RowAdded(g: Grammar, d: Declarations, allowAmbig: bool, info: Info, lr: LrGraph, pt: ParseTables, s: nat,
                 action: map<(nat, nat), Action>, goto: map<(nat, nat), nat>, symbol: map<nat, Symbol>)
    requires RowsFilled(g, d, allowAmbig, info, lr, pt, s) && s < |lr.sets|
    requires forall e :: e in action <==> e in pt.action || (e.0 == s && e.1 < g.numTerms)
    requires forall e :: e in pt.action ==> action[e] == pt.action[e]
    requires forall t: nat :: t < g.numTerms ==> CellFits(g, d, allowAmbig, ToAutomaton(lr), action, s, t)
    requires forall e :: e in goto && e.0 != s ==> e in pt.goto
    requires forall e :: e in pt.goto ==> e in goto && goto[e] == pt.goto[e]
    requires forall b: nat :: b < g.numNonterms ==> GotoFits(ToAutomaton(lr), goto, s, b)
    requires forall e :: e in goto && e.0 == s ==> e.1 < g.numNonterms
    requires SymbolFits(lr, symbol, s) && (symbol == pt.symbol || (s in symbol && symbol == pt.symbol[s := symbol[s]]))
    ensures RowsFilled(g, d, allowAmbig, info, lr, pt.(action := action, goto := goto, symbol := symbol), s + 1)
  {
    ActionsAdded(g, d, allowAmbig, lr, pt.action, action, s);
    GotosAdded(g, lr, pt.goto, goto, s);
    SymbolsAdded(lr, pt.symbol, symbol, s);
  }

  lemma ActionsAdded(g: Grammar, d: Declarations, allowAmbig: bool, lr: LrGraph, was: map<(nat, nat), Action>,
                     action: map<(nat, nat), Action>, s: nat)
    requires forall e :: e in was ==> CellFits(g, d, allowAmbig, ToAutomaton(lr), was, e.0, e.1)
    requires forall e :: e in action <==> e in was || (e.0 == s && e.1 < g.numTerms)
    requires forall e :: e in was ==> action[e] == was[e]
    requires forall t: nat :: t < g.numTerms ==> CellFits(g, d, allowAmbig, ToAutomaton(lr), action, s, t)
    ensures forall e :: e in action ==> CellFits(g, d, allowAmbig, ToAutomaton(lr), action, e.0, e.1)
  {
    forall e | e in action ensures CellFits(g, d, allowAmbig, ToAutomaton(lr), action, e.0, e.1) {
      if e in was {
        assert CellFits(g, d, allowAmbig, ToAutomaton(lr), was, e.0, e.1);
      }
    }
  }

  lemma GotosAdded(g: Grammar, lr: LrGraph, was: map<(nat, nat), nat>, goto: map<(nat, nat), nat>, s: nat)
    requires forall r: nat, b: nat :: r < s && b < g.numNonterms ==> GotoFits(ToAutomaton(lr), was, r, b)
    requires forall e :: e in goto && e.0 != s ==> e in was
    requires forall e :: e in was ==> e in goto && goto[e] == was[e]
    requires forall b: nat :: b < g.numNonterms ==> GotoFits(ToAutomaton(lr), goto, s, b)
    ensures forall r: nat, b: nat :: r < s + 1 && b < g.numNonterms ==> GotoFits(ToAutomaton(lr), goto, r, b)
  {
    forall r: nat, b: nat | r < s + 1 && b < g.numNonterms ensures GotoFits(ToAutomaton(lr), goto, r, b) {
      if r < s {
        assert GotoFits(ToAutomaton(lr), was, r, b);
      }
    }
  }

  lemma SymbolsAdded(lr: LrGraph, was: map<nat, Symbol>, symbol: map<nat, Symbol>, s: nat)
    requires forall u: nat :: u < s ==> SymbolFits(lr, was, u)
    requires SymbolFits(lr, symbol, s) && (symbol == was || (s in symbol && symbol == was[s := symbol[s]]))
    ensures forall u: nat :: u < s + 1 ==> SymbolFits(lr, symbol, u)
  {
    forall u: nat | u < s + 1 ensures SymbolFits(lr, symbol, u) {
      if u < s {
        assert SymbolFits(lr, was, u);
      }
    }
  }

  /** Tables with all rows filled take everything from the automaton, and drop nothing if nothing is declared. */
  lemma FilledTablesFit(g: Grammar, d: Declarations, allowAmbig: bool, info: Info, lr: LrGraph, pt: ParseTables)
    requires Finished(g, info, lr) && ProperGrammar(g) && ProperTerminals(g)
    requires pt.prods == g.prods && pt.numStates == |lr.sets| && RowsFilled(g, d, allowAmbig, info, lr, pt, |lr.sets|)
    ensures TablesFit(g, ToAutomaton(lr), pt)
    ensures Undeclared(d) && allowAmbig ==> TablesKeepAll(g, ToAutomaton(lr), pt)
  {
    var a := ToAutomaton(lr);
    forall s: nat, t: nat
      ensures WellFormedCell(ActionEntry(pt, s, t))
      ensures ShiftDest(ActionEntry(pt, s, t)).Some? ==>
                (s, T(t)) in a.trans && a.trans[(s, T(t))] == ShiftDest(ActionEntry(pt, s, t)).value
      ensures Undeclared(d) && allowAmbig && (s, T(t)) in a.trans ==>
                ShiftDest(ActionEntry(pt, s, t)) == Some(a.trans[(s, T(t))])
    {
      CellShifts(g, d, allowAmbig, info, lr, pt, s, t);
    }
    forall s: nat, t: nat, p: nat
      ensures ReduceFits(g, a, pt, s, t, p) && (Undeclared(d) && allowAmbig ==> KeepsReduce(g, a, pt, s, p, t))
    {
      CellReduces(g, d, allowAmbig, info, lr, pt, s, t, p);
    }
    forall s: nat, b: nat
      ensures (s, b) in pt.goto <==> (s, N(b)) in a.trans
      ensures (s, b) in pt.goto ==> pt.goto[(s, b)] == a.trans[(s, N(b))]
    {
      if (s, N(b)) in a.trans {
        TransInRange(g, info, lr, s, N(b));
      }
      if s < |lr.sets| && b < g.numNonterms {
        assert GotoFits(a, pt.goto, s, b);
      }
    }
    forall s: nat, x: Symbol | (s, x) in a.trans ensures SymbolOf(pt, a.trans[(s, x)]) == Some(x) {
      TargetIsNotStart(g, info, lr, s, x);
      assert SymbolFits(lr, pt.symbol, a.trans[(s, x)]);
    }
  }

  lemma CellShifts(g: Grammar, d: Declarations, allowAmbig: bool, info: Info, lr: LrGraph, pt: ParseTables, s: nat,
                   t: nat)
    requires Finished(g, info, lr) && ProperGrammar(g) && ProperTerminals(g)
    requires RowsFilled(g, d, allowAmbig, info, lr, pt, |lr.sets|)
    ensures WellFormedCell(ActionEntry(pt, s, t))
    ensures var shift := ShiftFrom(ToAutomaton(lr), s, t);
            && (ShiftDest(ActionEntry(pt, s, t)) == None || ShiftDest(ActionEntry(pt, s, t)) == shift)
            && (Undeclared(d) && allowAmbig ==> ShiftDest(ActionEntry(pt, s, t)) == shift)
  {
    var a := ToAutomaton(lr);
    if (s, T(t)) in a.trans {
      TransInRange(g, info, lr, s, T(t));
    }
    if (s, t) in pt.action {
      assert CellFits(g, d, allowAmbig, a, pt.action, s, t);
      ResolvedMeans(g, d, a.items[s], t, ShiftFrom(a, s, t), allowAmbig, pt.action[(s, t)]);
    }
  }

  lemma CellReduces(g: Grammar, d: Declarations, allowAmbig: bool, info: Info, lr: LrGraph, pt: ParseTables, s: nat,
                    t: nat, p: nat)
    requires Finished(g, info, lr) && pt.prods == g.prods && RowsFilled(g, d, allowAmbig, info, lr, pt, |lr.sets|)
    ensures ReduceFits(g, ToAutomaton(lr), pt, s, t, p)
    ensures Undeclared(d) && allowAmbig ==> KeepsReduce(g, ToAutomaton(lr), pt, s, p, t)
  {
    var a := ToAutomaton(lr);
    if s < |lr.sets| {
      LookaheadInRange(g, info, lr, s, t, p);
      if (s, t) in pt.action {
        assert CellFits(g, d, allowAmbig, a, pt.action, s, t);
        ResolvedMeans(g, d, a.items[s], t, ShiftFrom(a, s, t), allowAmbig, pt.action[(s, t)]);
      }
    }
  }

  /** Production 0 has no lookahead, and all others only terminals of the grammar. */
  lemma LookaheadInRange(g: Grammar, info: Info, lr: LrGraph, s: nat, t: nat, p: nat)
    requires Finished(g, info, lr) && s < |lr.sets|
    ensures CanReduceBy(g, ToAutomaton(lr).items[s], t, p) ==> t < g.numTerms && 0 < p
  {
    AllParts(g, info, lr.sets[s], s == START);
  }
}
