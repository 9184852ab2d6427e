/** From a grammar to a parser for exactly its language. */
module ParserGenerator {
  import opened Grammars
  import opened LrMachine
  import opened PathQueue
  import opened Stacks
  import opened YieldThenMerge
  import opened Acceptance
  import opened Language
  import opened Derivability
  import opened DerivabilityMatrix
  import opened NontermOrder
  import opened Rewriting
  import opened TerminalSets
  import opened FirstSets
  import opened ItemClosure
  import opened LrItemSets
  import opened LrConstruction
  import opened LrAutomaton
  import opened RealLookaheads
  import opened ConflictResolution
  import opened TableBuilding
  import opened StateNumbering
  import opened StackLoops
  import opened FastPath
  import opened ValuedMachine
  import opened AllTrees
  import opened GlrParser
  import opened BuiltTrees
  import opened MachineTrees
  import opened DeclaredCells
  import opened OperatorTrees

  /** A grammar as the front end hands it over: numbered symbols, one start production ending in end
      of input, a start symbol used nowhere else. */
  ghost predicate WellFormed(g: Grammar) {
    ProperGrammar(g) && ProperTerminals(g) && NoStart(g) && Augmented(g)
  }

  lemma {:induction false} BeginsInRange(g: Grammar, x: Symbol, t: nat, depth: nat)
    requires ProperTerminals(g) && Begins(g, x, t, depth) && (x.T? ==> x.t < g.numTerms)
    ensures t < g.numTerms
    decreases depth
  {
    if x.N? {
      var p: nat, i: nat :| BeginsBy(g, x.n, t, depth, p, i);
      BeginsInRange(g, g.prods[p].rhs[i], t, depth - 1);
    }
  }

  lemma FirstInRange(g: Grammar, p: nat, dot: nat, t: nat)
    requires ProperTerminals(g) && p < |g.prods| && dot <= |g.prods[p].rhs| && InFirst(g, g.prods[p].rhs[dot..], t)
    ensures t < g.numTerms
  {
    var xs := g.prods[p].rhs[dot..];
    FirstMeans(g, xs, t);
    var depth: nat, i: nat :| BeginsAt(g, xs, t, depth, i);
    assert xs[i] == g.prods[p].rhs[dot + i];
    BeginsInRange(g, xs[i], t, depth);
  }

  // ---------------------------------------------------------------- the analyses

  /** The members of a First set. */
  method TermsOf(g: Grammar, d: DottedProduction) returns (terms: set<nat>)
    requires ProperTerminals(g) && d.Sound(g)
    ensures terms == d.firstSet.Members() && Terminals(g, terms)
  {
    terms := {};
    for t := 0 to g.numTerms
      invariant forall x: nat :: x in terms <==> x < t && x in d.firstSet.Members()
    {
      var yes := d.firstSet.Contains(t);
      if yes {
        terms := terms + {t};
      }
    }
    forall t: nat | t in d.firstSet.Members() ensures t < g.numTerms {
      FirstInRange(g, d.prod, d.dot, t);
    }
  }

  method MakeDottedProductions(g: Grammar) returns (dprods: seq<seq<DottedProduction>>)
    ensures |dprods| == |g.prods| && forall p: nat :: p < |dprods| ==> DottedForms(g, dprods[p], p)
    ensures forall p, i :: 0 <= p < |dprods| && 0 <= i < |dprods[p]| ==> fresh(dprods[p][i])
  {
    dprods := [];
    for p := 0 to |g.prods|
      invariant |dprods| == p && forall q: nat :: q < p ==> DottedForms(g, dprods[q], q)
      invariant forall q, i :: 0 <= q < p && 0 <= i < |dprods[q]| ==> fresh(dprods[q][i])
    {
      var row: seq<DottedProduction> := [];
      for posn := 0 to |g.prods[p].rhs| + 1
        invariant |row| == posn && forall i :: 0 <= i < posn ==> row[i].prod == p && row[i].dot == i
        invariant forall i :: 0 <= i < posn ==> fresh(row[i])
      {
        var d := new DottedProduction(p, posn);
        row := row + [d];
      }
      dprods := dprods + [row];
    }
  }

  /** The information about the dotted forms of productions below `p`, and of `p` with the dot before `posn`;
      exact if everything that vanishes is `known` to. */
  ghost predicate InfoUpTo(g: Grammar, info: Info, p: nat, posn: nat, known: bool) {
    && InfoInGrammar(g, info)
    && (forall it :: it in info.first || it in info.vanishing ==> ItemIn(g, it) && Before(it, p, posn))
    && (known ==> forall it :: ItemIn(g, it) && Before(it, p, posn) ==> InfoExactAt(g, info, it))
  }

  ghost predicate Before(it: Item, p: nat, posn: nat) {
    it.prod < p || (it.prod == p && it.dot < posn)
  }

  ghost predicate RowDescribed(g: Grammar, row: seq<DottedProduction>, known: bool)
    reads row, set i | 0 <= i < |row| :: row[i].firstSet.bitmap
  {
    forall i :: 0 <= i < |row| ==> row[i].Sound(g) && (known ==> row[i].Exact(g))
  }

  method ReadRow(g: Grammar, row: seq<DottedProduction>, p: nat, info0: Info, ghost known: bool) returns (info: Info)
    requires ProperTerminals(g) && DottedForms(g, row, p) && InfoUpTo(g, info0, p, 0, known)
    requires RowDescribed(g, row, known)
    ensures InfoUpTo(g, info, p + 1, 0, known) && info.forbid == info0.forbid
  {
    info := info0;
    for posn := 0 to |row|
      invariant InfoUpTo(g, info, p, posn, known) && info.forbid == info0.forbid
    {
      var d := row[posn];
      var terms := TermsOf(g, d);
      var vanishing := info.vanishing + if d.canDeriveEmpty then {Item(p, posn)} else {};
      InfoStep(g, info, p, posn, terms, d.canDeriveEmpty, known);
      info := Info(info.first[Item(p, posn) := terms], vanishing, info.forbid);
    }
    forall it | known && ItemIn(g, it) && Before(it, p + 1, 0) ensures InfoExactAt(g, info, it) {
      assert Before(it, p, |row|);
    }
  }

  lemma InfoStep(g: Grammar, info: Info, p: nat, posn: nat, terms: set<nat>, empty: bool, known: bool)
    requires InfoUpTo(g, info, p, posn, known) && p < |g.prods| && posn <= |g.prods[p].rhs| && Terminals(g, terms)
    requires known ==> forall t: nat :: t in terms <==> InFirst(g, g.prods[p].rhs[posn..], t)
    requires known ==> (empty <==> Rewrites(g, g.prods[p].rhs[posn..], []))
    ensures var vanishing := info.vanishing + if empty then {Item(p, posn)} else {};
            InfoUpTo(g, Info(info.first[Item(p, posn) := terms], vanishing, info.forbid), p, posn + 1, known)
  {
    var info' := Info(info.first[Item(p, posn) := terms], info.vanishing + (if empty then {Item(p, posn)} else {}),
                      info.forbid);
    assert Item(p, posn) !in info.vanishing;
    forall it | known && ItemIn(g, it) && Before(it, p, posn + 1) ensures InfoExactAt(g, info', it) {
      if it != Item(p, posn) {
        assert Before(it, p, posn) && InfoExactAt(g, info, it);
      }
    }
  }

  method ReadInfo(g: Grammar, forbid: map<nat, set<nat>>, dprods: seq<seq<DottedProduction>>, ghost known: bool)
      returns (info: Info)
    requires ProperTerminals(g) && |dprods| == |g.prods|
    requires forall p: nat :: p < |dprods| ==> DottedForms(g, dprods[p], p)
    requires forall p :: 0 <= p < |dprods| ==> RowDescribed(g, dprods[p], known)
    ensures InfoInGrammar(g, info) && info.forbid == forbid && (known ==> InfoExact(g, info))
  {
    info := Info(map[], {}, forbid);
    for p := 0 to |g.prods|
      invariant InfoUpTo(g, info, p, 0, known) && info.forbid == forbid
    {
      assert DottedForms(g, dprods[p], p);
      info := ReadRow(g, dprods[p], p, info, known);
    }
  }

  method ComputeFirsts(g: Grammar, derivable: array2<bool>) returns (firsts: FirstAnalysis, ghost F: seq<set<nat>>)
    requires WellFormed(g) && NullKnown(g, derivable)
    ensures firsts.g == g && firsts.derivable == derivable && firsts.Valid() && firsts.Holds(F)
    ensures firsts.FirstsUsable(F)
  {
    var first := MakeSets(g.numNonterms, g.numTerms);
    var firstSet := MakeSets(|g.prods|, g.numTerms);
    firsts := new FirstAnalysis(g, derivable, first, firstSet);
    ghost var P;
    F, P := firsts.ComputeFirst(seq(|first|, _ => {}), seq(|firstSet|, _ => {}));
  }

  /** The First sets of the nonterminals as plain sets. */
  method NonterminalFirsts(firsts: FirstAnalysis, ghost F: seq<set<nat>>) returns (first: map<nat, set<nat>>)
    requires firsts.Valid() && firsts.Holds(F)
    ensures forall a: nat :: a in first <==> a < |F|
    ensures forall a: nat, t: nat :: a < |F| && t < firsts.g.numTerms ==> (t in first[a] <==> t in F[a])
  {
    first := map[];
    for a := 0 to |firsts.first|
      invariant forall b: nat :: b in first <==> b < a
      invariant forall b: nat, t: nat :: b < a && t < firsts.g.numTerms ==> (t in first[b] <==> t in F[b])
    {
      var terms: set<nat> := {};
      for t := 0 to firsts.g.numTerms
        invariant forall u: nat :: u < t ==> (u in terms <==> u in F[a])
        invariant forall u: nat :: u in terms ==> u < t
      {
        var yes := firsts.first[a].Contains(t);
        if yes {
          terms := terms + {t};
        }
      }
      first := first[a := terms];
    }
  }

  /** First sets and nullability of everything that can follow a dot. */
  method AnalyseFirsts(g: Grammar, forbid: map<nat, set<nat>>, derivable: array2<bool>)
      returns (info: Info, first: map<nat, set<nat>>)
    requires WellFormed(g) && NullKnown(g, derivable)
    ensures InfoInGrammar(g, info) && info.forbid == forbid
    ensures NullComplete(g, Vanishing(derivable)) ==> InfoExact(g, info)
    ensures NullComplete(g, Vanishing(derivable)) ==> NontermFirstsExact(g, first)
  {
    var firsts;
    ghost var F;
    firsts, F := ComputeFirsts(g, derivable);
    first := NonterminalFirsts(firsts, F);
    var dprods := MakeDottedProductions(g);
    firsts.ComputeDProdFirsts(dprods, F);
    ghost var known := NullComplete(g, Vanishing(derivable));
    forall p | 0 <= p < |dprods| ensures RowDescribed(g, dprods[p], known) {
      forall i | 0 <= i < |dprods[p]| ensures dprods[p][i].Sound(g) && (known ==> dprods[p][i].Exact(g)) {
        assert firsts.Described(dprods[p][i]);
      }
    }
    info := ReadInfo(g, forbid, dprods, known);
  }

  ghost predicate NontermFirstsExact(g: Grammar, first: map<nat, set<nat>>) {
    forall a: nat, t: nat :: a < g.numNonterms && t < g.numTerms ==>
      a in first && (t in first[a] <==> InFirst(g, [N(a)], t))
  }

  lemma NullFromRel(g: Grammar, m: Rel, a: nat)
    requires RelSound(g, m) && EMPTY < a < g.numNonterms
    ensures (a, EMPTY) in m ==> Nullable(g, N(a))
    ensures RelComplete(g, m) && Nullable(g, N(a)) ==> (a, EMPTY) in m
  {
    assert TrulyDerives(g, a, EMPTY) <==> Nullable(g, N(a));
  }

  /** The matrix knows nothing false, and all that vanishes if it is complete. */
  lemma NullFromMatrix(g: Grammar, derivable: array2<bool>)
    requires ProperGrammar(g) && derivable.Length0 == derivable.Length1 == g.numNonterms
    requires RelSound(g, Entries(derivable))
    ensures NullKnown(g, derivable)
    ensures RelComplete(g, Entries(derivable)) ==> NullComplete(g, Vanishing(derivable))
  {
    forall b: nat | EMPTY < b < g.numNonterms
      ensures b in Vanishing(derivable) ==> Nullable(g, N(b))
      ensures RelComplete(g, Entries(derivable)) && Nullable(g, N(b)) ==> b in Vanishing(derivable)
    {
      NullFromRel(g, Entries(derivable), b);
      assert derivable[b, EMPTY] <==> (b, EMPTY) in Entries(derivable);
    }
  }

  method OrderNonterminals(derivable: array2<bool>, ghost m: Rel) returns (order: map<nat, nat>, ghost ord: seq<int>)
    requires derivable.Length0 == derivable.Length1
    requires m == Entries(derivable)
    ensures |ord| == derivable.Length0 && Permutation(ord)
    ensures Transitive(m) ==> (Respects(ord, m) <==> Antisymmetric(m))
    ensures forall b: nat :: b < |ord| ==> b in order && order[b] == ord[b]
  {
    var topology := new Topology(derivable);
    topology.SortAll();
    ord := topology.order[..];
    var entries := topology.order[..];
    order := map b: nat | b < |entries| :: entries[b];
  }

  /** Nothing is declared that could remove an action or a lookahead, and the analysis is complete. */
  ghost predicate NothingDropped(g: Grammar, d: Declarations, forbid: map<nat, set<nat>>, allowAmbig: bool) {
    !StopsEarly(g) && Undeclared(d) && forbid == map[] && allowAmbig
  }

  /** Everything from the grammar file to the tables. Whatever it declares, they are tables of a sound
      automaton; they are complete if nothing is dropped. */
  method GenerateTables(g: Grammar, d: Declarations, forbid: map<nat, set<nat>>, allowAmbig: bool,
                        tie: (nat, nat) -> int)
      returns (pt: ParseTables, firsts: Firsts, ghost a: Automaton, ghost first: map<nat, set<nat>>)
    requires WellFormed(g) && SupersetsEnd(d) && BreaksTies(tie)
    ensures TablesObey(g, d.(first := first), allowAmbig, a, pt) && NothingForbidden(pt, forbid)
    ensures !StopsEarly(g) ==> AutomatonCompleteBut(g, a, forbid) && NontermFirstsExact(g, first)
    ensures AutomatonSound(g, a) && AutomatonTight(g, a) && TablesFit(g, a, pt) && StatesInRuns(g, pt, firsts)
    ensures !StopsEarly(g) ==> (OrderExact(g, pt) <==> Acyclic(g))
    ensures NothingDropped(g, d, forbid, allowAmbig) ==> Complete(g, a, pt)
    ensures NothingDropped(g, d, forbid, allowAmbig) && Acyclic(g) ==> forall t: nat :: !Loops(pt, t)
  {
    var analysis := new Analysis(g);
    analysis.ComputeWhatCanDeriveWhat(false);
    ghost var m := analysis.Marked();
    NullFromMatrix(g, analysis.derivable);
    var order;
    ghost var ord;
    order, ord := OrderNonterminals(analysis.derivable, m);
    pt, firsts, a, first := TablesFor(g, d, forbid, allowAmbig, tie, analysis.derivable, order);
    if !StopsEarly(g) {
      OrderOfTables(g, pt, m, ord);
    }
  }

  /** The states that a symbol enters follow each other, from the first one on. */
  ghost predicate StatesInRuns(g: Grammar, pt: ParseTables, firsts: Firsts) {
    && |firsts.firstWithTerminal| == g.numTerms && |firsts.firstWithNonterminal| == g.numNonterms
    && Runs(StateSymbols(pt), firsts, pt.numStates)
  }

  lemma OrderOfTables(g: Grammar, pt: ParseTables, m: Rel, ord: seq<int>)
    requires ProperGrammar(g) && RelSound(g, m) && RelComplete(g, m) && PairsClosed(m) && |ord| == g.numNonterms
    requires Permutation(ord) && (Transitive(m) ==> (Respects(ord, m) <==> Antisymmetric(m)))
    requires forall b: nat :: b < |ord| ==> b in pt.order && pt.order[b] == ord[b]
    ensures OrderExact(g, pt) <==> Acyclic(g)
  {
    ClosedIsTransitive(g, m);
    assert OrderTaken(pt, ord);
    SortedOrderIsExact(g, pt, m, ord);
  }

  method TablesFor(g: Grammar, d: Declarations, forbid: map<nat, set<nat>>, allowAmbig: bool, tie: (nat, nat) -> int,
                   derivable: array2<bool>, order: map<nat, nat>)
      returns (pt: ParseTables, firsts: Firsts, ghost a: Automaton, ghost first: map<nat, set<nat>>)
    requires WellFormed(g) && NullKnown(g, derivable) && SupersetsEnd(d) && BreaksTies(tie)
    ensures AutomatonSound(g, a) && AutomatonTight(g, a) && TablesFit(g, a, pt) && pt.order == order
    ensures StatesInRuns(g, pt, firsts)
    ensures TablesObey(g, d.(first := first), allowAmbig, a, pt) && NothingForbidden(pt, forbid)
    ensures NullComplete(g, Vanishing(derivable)) ==> AutomatonCompleteBut(g, a, forbid) && NontermFirstsExact(g, first)
    ensures Undeclared(d) && allowAmbig && forbid == map[] && NullComplete(g, Vanishing(derivable)) ==>
              Complete(g, a, pt) && (Acyclic(g) ==> forall t: nat :: !Loops(pt, t))
  {
    var info, ntFirst := AnalyseFirsts(g, forbid, derivable);
    first := ntFirst;
    SupersetsStillEnd(d, first);
    var sets := new LrSets(g, info);
    sets.ConstructLRItemSets();
    var lr;
    ghost var order', number, cmp;
    lr, order', number, cmp := NumberStates(g, LrGraph(sets.itemSets, sets.transition), tie, info);
    a := ToAutomaton(lr);
    FinishedIsSound(g, info, lr);
    pt := ComputeParseTables(g, d.(first := ntFirst), allowAmbig, lr, order, info);
    CellsObey(g, d.(first := first), allowAmbig, a, pt);
    NoneIsForbidden(g, info, lr, pt);
    SymbolsInRange(g, info, lr, StateSymbols(pt));
    firsts := FirstStates(StateSymbols(pt), g.numTerms, g.numNonterms);
    forall p: nat ensures ProdPrec(d.(first := first), p) == ProdPrec(d, p) {
    }
    if NullComplete(g, Vanishing(derivable)) {
      FinishedIsComplete(g, info, lr);
    }
    if Undeclared(d) && allowAmbig && forbid == map[] && NullComplete(g, Vanishing(derivable)) {
      NoLoopsWithoutCycles(g, info, lr, pt);
    }
  }

  /** No state reduces by a production before a token that forbids it. */
  ghost predicate NothingForbidden(pt: ParseTables, forbid: map<nat, set<nat>>) {
    forall s: nat, t: nat, p: nat :: Forbidden(forbid, p, t) ==> !CanReduce(ActionEntry(pt, s, t), p)
  }

  lemma NoneIsForbidden(g: Grammar, info: Info, lr: LrGraph, pt: ParseTables)
    requires Finished(g, info, lr) && TablesFit(g, ToAutomaton(lr), pt)
    ensures NothingForbidden(pt, info.forbid)
  {
    forall s: nat, t: nat, p: nat | CanReduce(ActionEntry(pt, s, t), p) ensures !Forbidden(info.forbid, p, t) {
      assert ReduceFits(g, ToAutomaton(lr), pt, s, t, p);
      StatesForbid(g, info, lr, s);
    }
  }

  lemma CellsObey(g: Grammar, d: Declarations, allowAmbig: bool, a: Automaton, pt: ParseTables)
    requires forall s: nat, t: nat :: s < |a.items| && t < g.numTerms ==>
               CellFits(g, d, allowAmbig, a, pt.action, s, t)
    ensures TablesObey(g, d, allowAmbig, a, pt)
  {
    forall s: nat, t: nat | s < |a.items| && t < g.numTerms ensures CellObeys(g, d, allowAmbig, a, pt, s, t) {
      ResolvedObeys(g, d, allowAmbig, a, pt, s, t);
    }
  }

  lemma SymbolsInRange(g: Grammar, info: Info, lr: LrGraph, symbols: seq<Option<Symbol>>)
    requires Finished(g, info, lr) && ProperGrammar(g) && ProperTerminals(g) && SymbolsFit(lr, symbols)
    ensures forall s: nat :: s < |symbols| && symbols[s].Some? ==>
              if symbols[s].value.T? then symbols[s].value.t < g.numTerms else symbols[s].value.n < g.numNonterms
  {
    forall s: nat | s < |symbols| && symbols[s].Some?
      ensures if symbols[s].value.T? then symbols[s].value.t < g.numTerms else symbols[s].value.n < g.numNonterms
    {
      assert EnteredBy(lr, s, symbols[s]) && EnteredIn(lr, s);
      var from: nat, x: Symbol :| (from, x) in lr.trans && lr.trans[(from, x)] == s;
      TransInRange(g, info, lr, from, x);
    }
  }

  lemma NoLoopsWithoutCycles(g: Grammar, info: Info, lr: LrGraph, pt: ParseTables)
    requires Generated(g, info, lr, pt) && AutomatonSound(g, ToAutomaton(lr)) && ProperGrammar(g)
    ensures Acyclic(g) ==> forall t: nat :: !Loops(pt, t)
  {
    SoundAutomatonGivesValidTables(g, ToAutomaton(lr), pt);
    if Acyclic(g) {
      FastPathHalts(g, info, lr, pt);
      AlwaysHaltsExactly(pt);
    }
  }

  lemma ChoicesAreParses(g: Grammar, input: seq<nat>, treeTop: Tree)
    requires g.prods != [] && Produces(g, treeTop, N(g.prods[0].lhs)) && Yield(treeTop) == input
    ensures OnlyParses(g, input, treeTop)
  {
    forall tree | Chooses(treeTop, tree) ensures IsParse(g, input, tree) {
      ChosenProduces(g, treeTop, tree, N(g.prods[0].lhs));
    }
  }

  lemma ChoicesAreBuilt(g: Grammar, pt: ParseTables, keep: (nat, Tree) -> bool, input: seq<nat>, treeTop: Tree)
    requires pt.prods == g.prods && KeepsEvery(keep) && Augmented(g) && NoStart(g) && TopBuilt(pt, keep, treeTop)
    requires Produces(g, treeTop, N(g.prods[0].lhs)) && Yield(treeTop) == input
    ensures OnlyMachineTrees(pt, input, treeTop)
  {
    forall tree | Chooses(treeTop, tree) ensures MachineBuilds(pt, input, tree) {
      ChosenIsRead(g, pt, keep, keep, input, treeTop, tree);
    }
  }

  lemma ParsesAreChoices(g: Grammar, a: Automaton, pt: ParseTables, input: seq<nat>, treeTop: Tree)
    requires Complete(g, a, pt) && Augmented(g) && NoStart(g)
    requires forall c :: c in ReadStacks(pt, input, |input|) ==> Chooses(treeTop, Node(0, ToForest(c.values)))
    ensures AllParses(g, input, treeTop)
  {
    forall tree | IsParse(g, input, tree) ensures Chooses(treeTop, tree) {
      var c := EveryTreeIsBuilt(g, a, pt, input, tree);
    }
  }

  /** Parse with such tables. Every input accepted is a sentence, and every sentence is accepted if the
      automaton is complete. The fast path may be used where the tables have no loop, and where the token
      can be read anyway. */
  method Parse(g: Grammar, pt: ParseTables, input: seq<nat>, useMiniLr: bool, ghost a: Automaton)
      returns (ok: bool, treeTop: Option<Tree>, yieldThenMergeCt: nat)
    requires AutomatonSound(g, a) && AutomatonTight(g, a) && TablesFit(g, a, pt)
    requires Augmented(g) && NoStart(g) && EndsOnce(input) && (useMiniLr ==> FastPathEnds(pt, (b, v) => true, input))
    ensures ok ==> Generates(g, N(g.prods[0].lhs), input)
    ensures ok ==> treeTop.Some? && Produces(g, treeTop.value, N(g.prods[0].lhs)) && Yield(treeTop.value) == input
    ensures ok ==> OnlyParses(g, input, treeTop.value)
    ensures ok ==> treeTop.value.Node? && exists keep :: TopBuilt(pt, keep, treeTop.value)
    ensures ok ==> OnlyMachineTrees(pt, input, treeTop.value)
    ensures ok && OrderExact(g, pt) ==> AllMachineTrees(pt, input, treeTop.value)
    ensures Complete(g, a, pt) && Generates(g, N(g.prods[0].lhs), input) ==> ok
    ensures ok && Complete(g, a, pt) && OrderExact(g, pt) ==> AllParses(g, input, treeTop.value)
    ensures OrderExact(g, pt) ==> yieldThenMergeCt == 0
  {
    SoundAutomatonGivesValidTables(g, a, pt);
    ghost var afterStart, last := AugmentedGivesEofShape(g, a, pt);
    if Complete(g, a, pt) {
      MachineReadsLanguage(g, a, pt, input, afterStart, last);
    }
    var glr := new GLR(pt, (b, v) => true, true);
    ok, treeTop := glr.GlrParse(input, useMiniLr, g, afterStart, last);
    if ok {
      TreeGenerates(g, treeTop.value, N(g.prods[0].lhs));
      ChoicesAreParses(g, input, treeTop.value);
      ChoicesAreBuilt(g, pt, glr.keep, input, treeTop.value);
      if Complete(g, a, pt) && OrderExact(g, pt) {
        ParsesAreChoices(g, a, pt, input, treeTop.value);
      }
    }
    yieldThenMergeCt := glr.yieldThenMergeCt;
  }

  lemma NoLoopsEnds(pt: ParseTables, keep: (nat, Tree) -> bool, input: seq<nat>)
    requires forall t: nat :: !Loops(pt, t)
    ensures FastPathEnds(pt, keep, input)
  {
  }

  /** A sentence is read token by token, so the fast path halts on each of them. */
  lemma SentenceEnds(pt: ParseTables, keep: (nat, Tree) -> bool, input: seq<nat>)
    requires KeepsEvery(keep) && MachineStacks(pt, input, |input|) != iset{}
    ensures FastPathEnds(pt, keep, input)
  {
    forall i | 0 <= i < |input| && Loops(pt, input[i]) ensures MachineStacks(pt, input, i + 1) != iset{} {
      DeadStaysDead(pt, input, i + 1);
    }
  }

  /** Generate the tables and parse. Whatever the grammar file declares, what is accepted is a sentence, and
      the tree returned stands for parse trees of it only. If nothing is dropped, exactly the sentences are
      accepted, and without cycles the tree stands for all parse trees. Without cycles no merge ever comes too
      late. The fast path may be used if nothing is dropped, on sentences, and without cycles on any input. */
  method Recognize(g: Grammar, d: Declarations, forbid: map<nat, set<nat>>, allowAmbig: bool, tie: (nat, nat) -> int,
                   input: seq<nat>, useMiniLr: bool)
      returns (ok: bool, treeTop: Option<Tree>, yieldThenMergeCt: nat)
    requires WellFormed(g) && SupersetsEnd(d) && BreaksTies(tie) && EndsOnce(input)
    requires useMiniLr ==>
               NothingDropped(g, d, forbid, allowAmbig) && (Acyclic(g) || Generates(g, N(g.prods[0].lhs), input))
    ensures ok ==> Generates(g, N(g.prods[0].lhs), input)
    ensures ok ==> treeTop.Some? && Produces(g, treeTop.value, N(g.prods[0].lhs)) && Yield(treeTop.value) == input
    ensures ok ==> OnlyParses(g, input, treeTop.value)
    ensures ok && !StopsEarly(g) ==> OperandsObey(g, d, forbid, treeTop.value)
    ensures NothingDropped(g, d, forbid, allowAmbig) && Generates(g, N(g.prods[0].lhs), input) ==> ok
    ensures NothingDropped(g, d, forbid, allowAmbig) && Acyclic(g) && ok ==> AllParses(g, input, treeTop.value)
    ensures !StopsEarly(g) && Acyclic(g) ==> yieldThenMergeCt == 0
  {
    var pt, firsts;
    ghost var a, first;
    pt, firsts, a, first := GenerateTables(g, d, forbid, allowAmbig, tie);
    if useMiniLr {
      FastPathUsable(g, a, pt, input);
    }
    ok, treeTop, yieldThenMergeCt := Parse(g, pt, input, useMiniLr, a);
    if ok && !StopsEarly(g) {
      TreeObeys(g, d, first, forbid, allowAmbig, a, pt, treeTop.value);
    }
  }

  lemma TreeObeys(g: Grammar, d: Declarations, first: map<nat, set<nat>>, forbid: map<nat, set<nat>>, allowAmbig: bool,
                  a: Automaton, pt: ParseTables, treeTop: Tree)
    requires AutomatonSound(g, a) && AutomatonCompleteBut(g, a, forbid) && TablesFit(g, a, pt)
    requires TablesObey(g, d.(first := first), allowAmbig, a, pt) && NoStart(g)
    requires Produces(g, treeTop, N(g.prods[0].lhs)) && exists keep :: TopBuilt(pt, keep, treeTop)
    ensures OperandsObey(g, d, forbid, treeTop)
  {
    var keep :| TopBuilt(pt, keep, treeTop);
    TreesObey(g, d.(first := first), forbid, allowAmbig, a, pt, keep, treeTop);
    SameOperands(g, d, first, forbid, treeTop);
  }

  /** The First sets have no part in it. */
  lemma SameOperands(g: Grammar, d: Declarations, first: map<nat, set<nat>>, forbid: map<nat, set<nat>>, tree: Tree)
    requires OperandsObey(g, d.(first := first), forbid, tree)
    ensures OperandsObey(g, d, forbid, tree)
  {
    forall q: nat, u: nat | NotOnTheRight(g, d, forbid, q, u)
      ensures NotOnTheRight(g, d.(first := first), forbid, q, u)
    {
      forall n: nat ensures Superset(d.(first := first), g.prods[q].lhs, n) == Superset(d, g.prods[q].lhs, n) {
        SameSupersets(d, first, g.prods[q].lhs, n);
      }
    }
    forall p: nat, t: nat | NotOnTheLeft(d, p, t) ensures NotOnTheLeft(d.(first := first), p, t) {
      forall r: nat ensures ReducesBefore(d.(first := first), r, t) <==> ReducesBefore(d, r, t) {
      }
    }
  }

  lemma FastPathUsable(g: Grammar, a: Automaton, pt: ParseTables, input: seq<nat>)
    requires AutomatonSound(g, a) && AutomatonTight(g, a) && Complete(g, a, pt) && Augmented(g) && NoStart(g)
    requires EndsOnce(input)
    requires (forall t: nat :: !Loops(pt, t)) || Generates(g, N(g.prods[0].lhs), input)
    ensures FastPathEnds(pt, (b, v) => true, input)
  {
    if forall t: nat :: !Loops(pt, t) {
      NoLoopsEnds(pt, (b, v) => true, input);
    } else {
      SoundAutomatonGivesValidTables(g, a, pt);
      var afterStart, last := AugmentedGivesEofShape(g, a, pt);
      MachineReadsLanguage(g, a, pt, input, afterStart, last);
      SentenceEnds(pt, (b, v) => true, input);
    }
  }
}
