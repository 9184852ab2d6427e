/** Without yield-then-merge the forest is complete: every reduction over the final values is in it. */
module CompleteForest {
  import opened Grammars
  import opened LrMachine
  import opened Gss
  import opened PathQueue
  import opened Worklist
  import opened ExactlyOnce
  import opened Stacks
  import opened Derivations

  /** `v` is one of the alternatives merged into `tree`. */
  predicate Offers(tree: Tree, v: Tree) {
    tree == v || (tree.Alt? && (Offers(tree.left, v) || Offers(tree.right, v)))
  }

  /** The reduction along `p` is among the alternatives of the link it was shifted to; the merge is
      skipped only where the parser it leads to cannot act on the lookahead anyway. */
  ghost predicate InForest(ctx: Context, w: Work, p: Path) {
    AllYielded(w.links, p.chain) && exists r: nat :: InForestAt(ctx, w, p, r)
  }

  ghost predicate AllYielded(links: Links, chain: seq<nat>) {
    forall e :: Uses(chain, e) ==> e in links && links[e].yieldCount > 0
  }

  ghost predicate InForestAt(ctx: Context, w: Work, p: Path, r: nat) {
    && ShiftedFor(ctx, w, p, r) && (r, p.chain[0]) in w.links
    && (ActionEntry(ctx.pt, w.ns[r].state, ctx.token) == Error
        || Offers(w.links[(r, p.chain[0])].sval, Node(p.prod, ValuesOf(w.links, p.chain))))
  }

  ghost predicate ForestComplete(ctx: Context, w: Work, done: iset<Path>) {
    forall p :: p in done ==> InForest(ctx, w, p)
  }

  /** The same for everything that is still possible. */
  ghost predicate ForestDone(ctx: Context, w: Work) {
    forall p :: Enabled(ctx.pt, ctx.token, w.ns, w.tp, p) ==> InForest(ctx, w, p)
  }

  lemma {:induction false} SameValues(links: Links, links': Links, chain: seq<nat>)
    requires forall e :: Uses(chain, e) ==> e in links && e in links' && links'[e].sval == links[e].sval
    ensures ValuesOf(links', chain) == ValuesOf(links, chain)
  {
    if |chain| > 1 {
      var e0 := (chain[1], chain[0]);
      assert chain[1] == e0.0 && chain[0] == e0.1;
      forall e | Uses(chain[1..], e) ensures Uses(chain, e) {
        var i, j :| 0 <= i < j < |chain[1..]| && j == i + 1 && chain[1..][j] == e.0 && chain[1..][i] == e.1;
        assert chain[j + 1] == e.0 && chain[i + 1] == e.1;
      }
      SameValues(links, links', chain[1..]);
    }
  }

  /** When a step merges into no yielded link, old links keep or extend their value, yielded ones keep it. */
  lemma StepLinks(ctx: Context, w: Work, e: Edge)
    requires Shape(ctx, w) && Ready(ctx.pt, w) && w.queue != [] && CanProcess(ctx, w, w.queue[0])
    requires Step(ctx, w).ytm == w.ytm && e in w.links
    ensures e in Step(ctx, w).links
    ensures w.links[e].yieldCount > 0 || Uses(w.queue[0].chain, e) ==>
              Step(ctx, w).links[e].sval == w.links[e].sval && Step(ctx, w).links[e].yieldCount > 0
    ensures forall v :: Offers(w.links[e].sval, v) ==> Offers(Step(ctx, w).links[e].sval, v)
  {
    var w1, p := Yielded(w), w.queue[0];
    YieldKeepsLinks(w.links, p.chain);
    if ctx.keep(LhsOf(ctx.pt, p.prod), ReducedValue(w)) {
      match OutcomeOf(ctx, w1, p.chain[0], LhsOf(ctx.pt, p.prod))
      case Dropped =>
      case Merged =>
      case NewLink =>
        assert Linked(w.ns, e.0, e.1) <==> e in w.links;
      case NewNode =>
        assert Linked(w.ns, e.0, e.1) <==> e in w.links;
    }
  }

  /** Yielded values are final. */
  lemma YieldedValuesStay(ctx: Context, w: Work, chain: seq<nat>)
    requires Shape(ctx, w) && Ready(ctx.pt, w) && w.queue != [] && CanProcess(ctx, w, w.queue[0])
    requires Step(ctx, w).ytm == w.ytm
    requires AllYielded(w.links, chain) || (chain == w.queue[0].chain && IsPath(w.ns, chain))
    ensures AllYielded(Step(ctx, w).links, chain) && ValuesOf(Step(ctx, w).links, chain) == ValuesOf(w.links, chain)
  {
    var links' := Step(ctx, w).links;
    forall e | Uses(chain, e)
      ensures e in w.links && e in links' && links'[e].yieldCount > 0 && links'[e].sval == w.links[e].sval
    {
      if !AllYielded(w.links, chain) {
        var i, j :| 0 <= i < j < |chain| && j == i + 1 && chain[j] == e.0 && chain[i] == e.1;
        assert Linked(w.ns, e.0, e.1);
      }
      StepLinks(ctx, w, e);
    }
    SameValues(w.links, links', chain);
  }

  lemma OldStaysInForest(ctx: Context, w: Work, done: iset<Path>, p: Path)
    requires Shape(ctx, w) && Once(ctx, w, done) && w.queue != [] && InForest(ctx, w, p)
    requires Ready(ctx.pt, w) && CanProcess(ctx, w, w.queue[0]) && Step(ctx, w).ytm == w.ytm
    ensures InForest(ctx, Step(ctx, w), p)
  {
    YieldedValuesStay(ctx, w, p.chain);
    var r: nat :| InForestAt(ctx, w, p, r);
    StepLinks(ctx, w, (r, p.chain[0]));
    ShiftedStays(ctx, w, done, p, r);
    StepBasics(ctx, w, done);
    StillOffered(ctx, w, Step(ctx, w), p, r);
  }

  lemma StillOffered(ctx: Context, w: Work, w': Work, p: Path, r: nat)
    requires InForestAt(ctx, w, p, r) && ShiftedFor(ctx, w', p, r) && (r, p.chain[0]) in w'.links
    requires w'.ns[r].state == w.ns[r].state && ValuesOf(w'.links, p.chain) == ValuesOf(w.links, p.chain)
    requires forall v :: Offers(w.links[(r, p.chain[0])].sval, v) ==> Offers(w'.links[(r, p.chain[0])].sval, v)
    ensures InForestAt(ctx, w', p, r)
  {
  }

  lemma HeadInForest(ctx: Context, w: Work, done: iset<Path>)
    requires Shape(ctx, w) && Once(ctx, w, done) && w.queue != [] && KeepsAll(ctx)
    requires Ready(ctx.pt, w) && CanProcess(ctx, w, w.queue[0]) && Step(ctx, w).ytm == w.ytm
    ensures InForest(ctx, Step(ctx, w), w.queue[0])
  {
    var r := ShiftedNow(ctx, w, done);
    var p := w.queue[0];
    assert Enabled(ctx.pt, ctx.token, w.ns, w.tp, p);
    YieldedValuesStay(ctx, w, p.chain);
    StepFrontier(ctx, w, done);
    HeadOffered(ctx, w, r);
    assert InForestAt(ctx, Step(ctx, w), p, r);
  }

  lemma StepFrontier(ctx: Context, w: Work, done: iset<Path>)
    requires Shape(ctx, w) && Once(ctx, w, done) && w.queue != []
    ensures Ready(ctx.pt, w) && CanProcess(ctx, w, w.queue[0])
    ensures FrontierOK(Step(ctx, w).ns, Step(ctx, w).tp, ctx.column)
  {
    var grew, r := StepOnce(ctx, w, done);
  }

  /** The step puts the reduced value on the link, by creating it or by merging. */
  lemma HeadOffered(ctx: Context, w: Work, r: nat)
    requires KeepsAll(ctx) && w.queue != []
    requires Ready(ctx.pt, w) && CanProcess(ctx, w, w.queue[0]) && ShiftedFor(ctx, Step(ctx, w), w.queue[0], r)
    requires FrontierOK(Step(ctx, w).ns, Step(ctx, w).tp, ctx.column)
    ensures (r, w.queue[0].chain[0]) in Step(ctx, w).links
    ensures ActionEntry(ctx.pt, Step(ctx, w).ns[r].state, ctx.token) == Error
            || Offers(Step(ctx, w).links[(r, w.queue[0].chain[0])].sval, ReducedValue(w))
  {
    StepShifts(ctx, w);
    ShiftOffers(ctx, Yielded(w), w.queue[0].chain[0], LhsOf(ctx.pt, w.queue[0].prod), ReducedValue(w), r);
  }

  lemma StepShifts(ctx: Context, w: Work)
    requires KeepsAll(ctx) && w.queue != [] && Ready(ctx.pt, w) && CanProcess(ctx, w, w.queue[0])
    ensures Ready(ctx.pt, Yielded(w))
    ensures Step(ctx, w) == ShiftNonterminal(ctx, Yielded(w), w.queue[0].chain[0], LhsOf(ctx.pt, w.queue[0].prod),
                                             ReducedValue(w))
  {
    YieldKeepsLinks(w.links, w.queue[0].chain);
  }

  lemma ShiftOffers(ctx: Context, w: Work, l: nat, b: nat, v: Tree, r: nat)
    requires Ready(ctx.pt, w) && l < |w.ns| && (w.ns[l].state, b) in ctx.pt.goto
    requires var w' := ShiftNonterminal(ctx, w, l, b, v);
             FrontierOK(w'.ns, w'.tp, ctx.column) && r in w'.tp && w'.ns[r].state == ctx.pt.goto[(w.ns[l].state, b)]
    ensures var w' := ShiftNonterminal(ctx, w, l, b, v);
            (r, l) in w'.links && (ActionEntry(ctx.pt, w'.ns[r].state, ctx.token) == Error
                                   || Offers(w'.links[(r, l)].sval, v))
  {
    var w' := ShiftNonterminal(ctx, w, l, b, v);
    match OutcomeOf(ctx, w, l, b)
    case NewNode =>
      SameTop(w'.ns, w'.tp, ctx.column, r, |w.ns|);
    case _ =>
      var u := FindTop(w.ns, w.tp, ctx.pt.goto[(w.ns[l].state, b)]).value;
      SameTop(w'.ns, w'.tp, ctx.column, r, u);
      assert Linked(w.ns, u, l) ==> (u, l) in w.links;
  }

  lemma SameTop(ns: Pool, tp: seq<nat>, c: nat, r: nat, u: nat)
    requires FrontierOK(ns, tp, c) && r in tp && u in tp && ns[r].state == ns[u].state
    ensures r == u
  {
    var i :| 0 <= i < |tp| && tp[i] == r;
    var j :| 0 <= j < |tp| && tp[j] == u;
  }

  /** The forest stays complete as long as no yielded link is merged into. */
  lemma StepForest(ctx: Context, w: Work, done: iset<Path>)
    requires Shape(ctx, w) && Once(ctx, w, done) && w.queue != [] && KeepsAll(ctx) && ForestComplete(ctx, w, done)
    requires Ready(ctx.pt, w) && CanProcess(ctx, w, w.queue[0]) && Step(ctx, w).ytm == w.ytm
    ensures ForestComplete(ctx, Step(ctx, w), done + iset{w.queue[0]})
  {
    forall p | p in done + iset{w.queue[0]} ensures InForest(ctx, Step(ctx, w), p) {
      if p in done {
        OldStaysInForest(ctx, w, done, p);
      } else {
        HeadInForest(ctx, w, done);
      }
    }
  }
}
