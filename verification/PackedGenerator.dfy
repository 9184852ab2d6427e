/** From a grammar to the packed tables that the parser looks its actions up in. */
module PackedGenerator {
  import opened Grammars
  import opened LrMachine
  import opened Gss
  import opened FiniteSets
  import opened TableEncoding
  import opened TableCompression
  import opened TablePacking
  import opened StateNumbering
  import opened StackLoops
  import opened Derivability
  import opened Language
  import TableBuilding
  import ConflictResolution
  import ParserGenerator

  // ---------------------------------------------------------------- room for everything

  /** No symbol enters too many states, and no state has too many reductions or ambiguous actions. */
  ghost predicate EnoughRoom(pt: ParseTables, numTerms: nat, numNonterms: nat) {
    var symbols := TableBuilding.StateSymbols(pt);
    && numTerms <= TERM_LIMIT && numNonterms <= NONTERM_LIMIT
    && (forall t: nat :: t < numTerms ==> |EnteredStates(symbols, T(t))| <= AE_MAXINDEX + 1)
    && (forall b: nat :: b < numNonterms ==> |EnteredStates(symbols, N(b))| <= ERROR_GOTO)
    && (forall s: nat :: s < pt.numStates ==> StateHasRoom(pt, s, numTerms))
  }

  ghost predicate StateHasRoom(pt: ParseTables, s: nat, numTerms: nat) {
    && (forall ps :: Reductions(pt, s, ps) ==> |ps| <= AE_MAXINDEX + 1)
    && AmbigCellsOf(pt, s, numTerms) <= AE_MAXINDEX + 1
  }

  lemma CellShift(a: Action, dest: nat)
    requires WellFormedCell(a) && (a == Shift(dest) || (a.Ambig? && Shift(dest) in a.acts))
    ensures ShiftDest(a) == Some(dest)
  {
    if a.Ambig? {
      var i :| 0 <= i < |a.acts| && a.acts[i] == Shift(dest);
    }
  }

  /** States are numbered so that a shift is never to a state before the first of its run. */
  lemma ShiftsInReach(g: Grammar, a: Automaton, pt: ParseTables, firsts: Firsts, s: nat, t: nat)
    requires TablesFit(g, a, pt) && AutomatonSound(g, a) && ParserGenerator.StatesInRuns(g, pt, firsts)
    requires t < g.numTerms
    requires |EnteredStates(TableBuilding.StateSymbols(pt), T(t))| <= AE_MAXINDEX + 1
    ensures ShiftInReach(ActionEntry(pt, s, t), firsts.firstWithTerminal[t])
  {
    var cell := ActionEntry(pt, s, t);
    forall dest: nat | cell == Shift(dest) || (cell.Ambig? && Shift(dest) in cell.acts)
      ensures firsts.firstWithTerminal[t] <= dest <= firsts.firstWithTerminal[t] + AE_MAXINDEX
    {
      CellShift(cell, dest);
      InRunOf(g, a, pt, firsts, s, T(t));
    }
  }

  lemma InRunOf(g: Grammar, a: Automaton, pt: ParseTables, firsts: Firsts, s: nat, x: Symbol)
    requires TablesFit(g, a, pt) && AutomatonSound(g, a) && ParserGenerator.StatesInRuns(g, pt, firsts)
    requires (s, x) in a.trans
    ensures HasFirst(firsts, x)
    ensures 0 <= a.trans[(s, x)] - FirstState(firsts, x) < |EnteredStates(TableBuilding.StateSymbols(pt), x)|
  {
    var symbols, dest := TableBuilding.StateSymbols(pt), a.trans[(s, x)];
    assert TransitionSound(a, s, x) && SymbolOf(pt, dest) == Some(x);
    assert InRun(symbols, firsts, dest);
    DeltaInRun(symbols, firsts, dest);
  }

  lemma EnoughRoomFits(g: Grammar, a: Automaton, pt: ParseTables, firsts: Firsts)
    requires TablesFit(g, a, pt) && AutomatonSound(g, a) && ParserGenerator.StatesInRuns(g, pt, firsts)
    requires EnoughRoom(pt, g.numTerms, g.numNonterms)
    ensures EverythingFits(pt, firsts.firstWithTerminal, firsts.firstWithNonterminal)
  {
    forall s: nat | s < pt.numStates ensures StateFits(pt, s, firsts.firstWithTerminal) {
      assert StateHasRoom(pt, s, g.numTerms);
      forall t: nat | t < g.numTerms ensures ShiftInReach(ActionEntry(pt, s, t), firsts.firstWithTerminal[t]) {
        ShiftsInReach(g, a, pt, firsts, s, t);
      }
    }
    forall s: nat, b: nat | b < g.numNonterms ensures GotoFits(pt, firsts.firstWithNonterminal, s, b) {
      if (s, b) in pt.goto {
        InRunOf(g, a, pt, firsts, s, N(b));
      }
    }
  }

  // ---------------------------------------------------------------- the whole way

  /** Generate, number, encode and compress. What a query of the packed tables decodes to is the action, and
      the goto, of tables of a sound automaton, which are complete if nothing is dropped. Only a table that
      runs out of room is refused. */
  method GeneratePacked(g: Grammar, d: ConflictResolution.Declarations, forbid: map<nat, set<nat>>, allowAmbig: bool,
                        tie: (nat, nat) -> int)
      returns (ok: bool, dt: DeltaTables, tables: CompressedTables, firsts: Firsts, pt: ParseTables,
               ghost a: Automaton, ghost action: array2<int>, ghost goto: array2<int>)
    requires ParserGenerator.WellFormed(g) && ConflictResolution.SupersetsEnd(d) && BreaksTies(tie)
    ensures AutomatonSound(g, a) && TablesFit(g, a, pt)
    ensures ParserGenerator.NothingDropped(g, d, forbid, allowAmbig) ==> Complete(g, a, pt)
    ensures ok ==> Packed(pt, firsts.firstWithNonterminal, dt, tables, action, goto)
    ensures ok ==> action.Length1 == g.numTerms && goto.Length1 == g.numNonterms
    ensures EnoughRoom(pt, g.numTerms, g.numNonterms) ==> ok
  {
    ghost var first;
    pt, firsts, a, first := ParserGenerator.GenerateTables(g, d, forbid, allowAmbig, tie);
    ok, dt, tables, action, goto := PackTables(pt, firsts.firstWithTerminal, firsts.firstWithNonterminal);
    if EnoughRoom(pt, g.numTerms, g.numNonterms) {
      EnoughRoomFits(g, a, pt, firsts);
    }
  }
}
