/** The value on every link is a parse tree of exactly the tokens between its two nodes. */
module Derivations {
  import opened Grammars
  import opened LrMachine
  import opened Gss
  import opened PathQueue
  import opened Worklist
  import opened ExactlyOnce

  /** The value on the link from `r` to `l` derives the tokens from column to column. */
  ghost predicate LinkDerives(g: Grammar, input: seq<nat>, pt: ParseTables, ns: Pool, links: Links, r: nat, l: nat) {
    (r, l) in links && r < |ns| && l < |ns| ==>
      && ns[l].column <= ns[r].column <= |input|
      && SymbolOf(pt, ns[r].state).Some?
      && ValueDerives(g, links[(r, l)].sval, SymbolOf(pt, ns[r].state).value, input[ns[l].column..ns[r].column])
  }

  ghost predicate ValueDerives(g: Grammar, v: Tree, x: Symbol, tokens: seq<nat>) {
    Produces(g, v, x) && Yield(v) == tokens
  }

  ghost predicate LinksDerive(g: Grammar, input: seq<nat>, pt: ParseTables, ns: Pool, links: Links) {
    forall r: nat, l: nat :: LinkDerives(g, input, pt, ns, links, r, l)
  }

  lemma SliceJoin<A>(s: seq<A>, i: nat, j: nat, k: nat)
    requires i <= j <= k <= |s|
    ensures s[i..j] + s[j..k] == s[i..k]
  {
  }

  /** The values along a path are trees of the symbols it passes over. */
  lemma {:induction false} ChainDerives(g: Grammar, input: seq<nat>, pt: ParseTables, ns: Pool, links: Links,
                                        chain: seq<nat>, xs: seq<Symbol>)
    requires GraphOK(pt, ns) && LinksExact(ns, links) && LinksDerive(g, input, pt, ns, links) && IsPath(ns, chain)
    requires |chain| == |xs| + 1 && ns[Last(chain)].column <= |input|
    requires forall i :: 0 < i < |chain| ==> SymbolOf(pt, ns[chain[i]].state) == Some(xs[i - 1])
    ensures ProducesAll(g, ValuesOf(links, chain), xs)
    ensures ns[chain[0]].column <= ns[Last(chain)].column
    ensures Yields(ValuesOf(links, chain)) == input[ns[chain[0]].column..ns[Last(chain)].column]
    decreases |chain|
  {
    if |chain| > 1 {
      assert Linked(ns, chain[1], chain[0]);
      assert LinkDerives(g, input, pt, ns, links, chain[1], chain[0]);
      SubPath(ns, chain, 1, |chain|);
      assert chain[1..|chain|] == chain[1..];
      forall i | 0 < i < |chain[1..]| ensures SymbolOf(pt, ns[chain[1..][i]].state) == Some(xs[1..][i - 1]) {
        assert SymbolOf(pt, ns[chain[i + 1]].state) == Some(xs[i]);
      }
      ChainDerives(g, input, pt, ns, links, chain[1..], xs[1..]);
      ColumnsGrow(pt, ns, chain, 1, |chain| - 1);
      assert SymbolOf(pt, ns[chain[1]].state) == Some(xs[0]);
      SliceJoin(input, ns[chain[0]].column, ns[chain[1]].column, ns[Last(chain)].column);
    }
  }

  /** The value a reduction computes derives the tokens it spans. */
  lemma ReductionDerives(g: Grammar, input: seq<nat>, ctx: Context, w: Work, p: Path)
    requires Shape(ctx, w) && ctx.pt.prods == g.prods && ctx.column <= |input|
    requires LinksDerive(g, input, ctx.pt, w.ns, w.links) && Enabled(ctx.pt, ctx.token, w.ns, w.tp, p)
    ensures CanProcess(ctx, w, p) && w.ns[p.chain[0]].column <= ctx.column
    ensures ValueDerives(g, Node(p.prod, ValuesOf(w.links, p.chain)), N(LhsOf(ctx.pt, p.prod)),
                         input[w.ns[p.chain[0]].column..ctx.column])
  {
    EnabledSpells(ctx, w, p);
    ChainDerives(g, input, ctx.pt, w.ns, w.links, p.chain, g.prods[p.prod].rhs);
  }

  /** Every step keeps the tokens and the trees in agreement. */
  lemma StepDerives(g: Grammar, input: seq<nat>, ctx: Context, w: Work, done: iset<Path>)
    requires Shape(ctx, w) && Once(ctx, w, done) && w.queue != []
    requires ctx.pt.prods == g.prods && ctx.column <= |input| && LinksDerive(g, input, ctx.pt, w.ns, w.links)
    ensures Ready(ctx.pt, w) && CanProcess(ctx, w, w.queue[0])
    ensures LinksDerive(g, input, ctx.pt, Step(ctx, w).ns, Step(ctx, w).links)
  {
    StepBasics(ctx, w, done);
    ReductionDerives(g, input, ctx, w, w.queue[0]);
    var w' := Step(ctx, w);
    forall r: nat, l: nat ensures LinkDerives(g, input, ctx.pt, w'.ns, w'.links, r, l) {
      assert LinkDerives(g, input, ctx.pt, w.ns, w.links, r, l);
      StepLinkDerives(g, input, ctx, w, r, l);
    }
  }

  /** Nodes keep their state and column. */
  lemma StepBasics(ctx: Context, w: Work, done: iset<Path>)
    requires Shape(ctx, w) && Once(ctx, w, done) && w.queue != []
    ensures Ready(ctx.pt, w) && CanProcess(ctx, w, w.queue[0]) && Enabled(ctx.pt, ctx.token, w.ns, w.tp, w.queue[0])
    ensures |w.ns| <= |Step(ctx, w).ns|
    ensures forall u: nat :: u < |w.ns| ==>
              Step(ctx, w).ns[u].state == w.ns[u].state && Step(ctx, w).ns[u].column == w.ns[u].column
  {
    var grew, r0 := StepOnce(ctx, w, done);
  }

  lemma StepLinkDerives(g: Grammar, input: seq<nat>, ctx: Context, w: Work, r: nat, l: nat)
    requires Shape(ctx, w) && Ready(ctx.pt, w) && w.queue != [] && CanProcess(ctx, w, w.queue[0])
    requires ctx.column <= |input|
    requires |w.ns| <= |Step(ctx, w).ns|
    requires forall u: nat :: u < |w.ns| ==>
               Step(ctx, w).ns[u].state == w.ns[u].state && Step(ctx, w).ns[u].column == w.ns[u].column
    requires LinkDerives(g, input, ctx.pt, w.ns, w.links, r, l) && w.ns[w.queue[0].chain[0]].column <= ctx.column
    requires ValueDerives(g, ReducedValue(w), N(LhsOf(ctx.pt, w.queue[0].prod)),
                          input[w.ns[w.queue[0].chain[0]].column..ctx.column])
    ensures LinkDerives(g, input, ctx.pt, Step(ctx, w).ns, Step(ctx, w).links, r, l)
  {
    if (r, l) in Step(ctx, w).links {
      assert GotoValid(ctx.pt, w.ns[w.queue[0].chain[0]].state, LhsOf(ctx.pt, w.queue[0].prod));
      StepValue(ctx, w, r, l);
      assert (r, l) in w.links ==> Linked(w.ns, r, l) && LinkOK(ctx.pt, w.ns, r, l);
    }
  }

  /** A link's value after a step is its old value, the reduced value, or the merge of both. */
  lemma StepValue(ctx: Context, w: Work, r: nat, l: nat)
    requires Shape(ctx, w) && Ready(ctx.pt, w) && w.queue != [] && CanProcess(ctx, w, w.queue[0])
    requires (r, l) in Step(ctx, w).links
    ensures var v' := Step(ctx, w).links[(r, l)].sval;
            || ((r, l) in w.links && v' == w.links[(r, l)].sval)
            || (&& l == w.queue[0].chain[0] && r < |Step(ctx, w).ns|
                && Step(ctx, w).ns[r].state == ctx.pt.goto[(w.ns[l].state, LhsOf(ctx.pt, w.queue[0].prod))]
                && Step(ctx, w).ns[r].column == ctx.column
                && ctx.keep(LhsOf(ctx.pt, w.queue[0].prod), ReducedValue(w))
                && v' == if (r, l) in w.links then Alt(w.links[(r, l)].sval, ReducedValue(w)) else ReducedValue(w))
  {
    var w1, p := Yielded(w), w.queue[0];
    YieldKeepsLinks(w.links, p.chain);
    var l0, b := p.chain[0], LhsOf(ctx.pt, p.prod);
    if ctx.keep(b, ReducedValue(w)) {
      match OutcomeOf(ctx, w1, l0, b)
      case Dropped =>
      case Merged =>
      case NewLink =>
        assert !Linked(w.ns, FindTop(w1.ns, w1.tp, ctx.pt.goto[(w.ns[l0].state, b)]).value, l0);
      case NewNode =>
        assert !Linked(w.ns, |w.ns|, l0);
    }
  }
}
