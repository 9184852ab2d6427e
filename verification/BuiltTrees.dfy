/** Every value on the graph is one that the tables, the lookaheads and the user allow to build: nothing that a
    conflict declaration or a veto removes comes back in a tree. */
module BuiltTrees {
  import opened Grammars
  import opened LrMachine
  import opened Gss
  import opened PathQueue
  import opened Worklist
  import opened ExactlyOnce
  import opened Derivations
  import opened ShiftPhase
  import opened MiniLr

  /** The state above `s` once the root of `tree` has been pushed. */
  function Beyond(pt: ParseTables, s: nat, tree: Tree): Option<nat> {
    match tree
    case Leaf(t) => ShiftDest(ActionEntry(pt, s, t))
    case Node(p, _) =>
      if p < |pt.prods| && (s, pt.prods[p].lhs) in pt.goto then Some(pt.goto[(s, pt.prods[p].lhs)]) else None
    case Alt(left, _) => Beyond(pt, s, left)
  }

  /** The state above `s` once all of `f` has been pushed. */
  function EndOf(pt: ParseTables, s: nat, f: Forest): Option<nat>
    decreases f
  {
    match f
    case Nil => Some(s)
    case Cons(head, tail) =>
      match Beyond(pt, s, head)
      case Some(u) => EndOf(pt, u, tail)
      case None => None
  }

  /** The token after a tree that `w` and then `la` follow. */
  function NextToken(w: seq<nat>, la: nat): nat {
    if w == [] then la else w[0]
  }

  /** Above state `s`, with `la` after its tokens, `tree` can be built: every token is shifted and every node
      reduced under the token that comes next, and the user keeps every node. */
  ghost predicate CanBuild(pt: ParseTables, keep: (nat, Tree) -> bool, s: nat, tree: Tree, la: nat)
    decreases tree
  {
    Beyond(pt, s, tree).Some? &&
    match tree
    case Leaf(_) => true
    case Node(p, kids) =>
      && keep(pt.prods[p].lhs, tree) && CanBuildAll(pt, keep, s, kids, la)
      && EndOf(pt, s, kids).Some? && CanReduce(ActionEntry(pt, EndOf(pt, s, kids).value, la), p)
    case Alt(left, right) =>
      && CanBuild(pt, keep, s, left, la) && CanBuild(pt, keep, s, right, la)
      && Beyond(pt, s, left) == Beyond(pt, s, right)
  }

  ghost predicate CanBuildAll(pt: ParseTables, keep: (nat, Tree) -> bool, s: nat, f: Forest, la: nat)
    decreases f
  {
    match f
    case Nil => true
    case Cons(head, tail) =>
      && CanBuild(pt, keep, s, head, NextToken(Yields(tail), la))
      && CanBuildAll(pt, keep, Beyond(pt, s, head).value, tail, la)
  }

  function TokenAt(input: seq<nat>, i: nat): nat {
    if i < |input| then input[i] else EOF
  }

  ghost predicate LinkBuilt(pt: ParseTables, keep: (nat, Tree) -> bool, input: seq<nat>, ns: Pool, links: Links,
                            r: nat, l: nat) {
    (r, l) in links && r < |ns| && l < |ns| ==>
      && Beyond(pt, ns[l].state, links[(r, l)].sval) == Some(ns[r].state)
      && CanBuild(pt, keep, ns[l].state, links[(r, l)].sval, TokenAt(input, ns[r].column))
  }

  ghost predicate LinksBuilt(pt: ParseTables, keep: (nat, Tree) -> bool, input: seq<nat>, ns: Pool, links: Links) {
    forall r: nat, l: nat :: LinkBuilt(pt, keep, input, ns, links, r, l)
  }

  // ---------------------------------------------------------------- every step keeps it

  lemma FirstOfSlice(input: seq<nat>, i: nat, j: nat)
    requires i <= j <= |input|
    ensures NextToken(input[i..j], TokenAt(input, j)) == TokenAt(input, i)
  {
  }

  /** The values along a path can be built one after the other. */
  lemma {:induction false} ChainBuilt(g: Grammar, keep: (nat, Tree) -> bool, input: seq<nat>, pt: ParseTables, ns: Pool,
                                      links: Links, chain: seq<nat>, xs: seq<Symbol>)
    requires GraphOK(pt, ns) && LinksExact(ns, links) && LinksDerive(g, input, pt, ns, links) && IsPath(ns, chain)
    requires LinksBuilt(pt, keep, input, ns, links)
    requires |chain| == |xs| + 1 && ns[Last(chain)].column <= |input|
    requires forall i :: 0 < i < |chain| ==> SymbolOf(pt, ns[chain[i]].state) == Some(xs[i - 1])
    ensures EndOf(pt, ns[chain[0]].state, ValuesOf(links, chain)) == Some(ns[Last(chain)].state)
    ensures CanBuildAll(pt, keep, ns[chain[0]].state, ValuesOf(links, chain), TokenAt(input, ns[Last(chain)].column))
    decreases |chain|
  {
    if |chain| > 1 {
      var rest := chain[1..];
      assert Linked(ns, chain[1], chain[0]);
      assert LinkBuilt(pt, keep, input, ns, links, chain[1], chain[0]);
      SubPath(ns, chain, 1, |chain|);
      assert chain[1..|chain|] == rest && Last(rest) == Last(chain);
      forall i | 0 < i < |rest| ensures SymbolOf(pt, ns[rest[i]].state) == Some(xs[1..][i - 1]) {
        assert SymbolOf(pt, ns[chain[i + 1]].state) == Some(xs[i]);
      }
      ChainBuilt(g, keep, input, pt, ns, links, rest, xs[1..]);
      ChainDerives(g, input, pt, ns, links, rest, xs[1..]);
      FirstOfSlice(input, ns[rest[0]].column, ns[Last(rest)].column);
    }
  }

  /** So can the value of a reduction, if the user keeps it. */
  lemma ReductionBuilt(g: Grammar, input: seq<nat>, ctx: Context, w: Work, p: Path)
    requires Shape(ctx, w) && ctx.pt.prods == g.prods && ctx.column <= |input|
    requires LinksDerive(g, input, ctx.pt, w.ns, w.links) && LinksBuilt(ctx.pt, ctx.keep, input, w.ns, w.links)
    requires Enabled(ctx.pt, ctx.token, w.ns, w.tp, p) && ctx.token == TokenAt(input, ctx.column)
    ensures CanProcess(ctx, w, p)
    ensures var v, s := Node(p.prod, ValuesOf(w.links, p.chain)), w.ns[p.chain[0]].state;
            && Beyond(ctx.pt, s, v) == Some(ctx.pt.goto[(s, LhsOf(ctx.pt, p.prod))])
            && (ctx.keep(LhsOf(ctx.pt, p.prod), v) ==> CanBuild(ctx.pt, ctx.keep, s, v, ctx.token))
  {
    EnabledSpells(ctx, w, p);
    ChainBuilt(g, ctx.keep, input, ctx.pt, w.ns, w.links, p.chain, g.prods[p.prod].rhs);
  }

  lemma StepBuilds(g: Grammar, input: seq<nat>, ctx: Context, w: Work, done: iset<Path>)
    requires Shape(ctx, w) && Once(ctx, w, done) && w.queue != []
    requires ctx.pt.prods == g.prods && ctx.column <= |input| && ctx.token == TokenAt(input, ctx.column)
    requires LinksDerive(g, input, ctx.pt, w.ns, w.links) && LinksBuilt(ctx.pt, ctx.keep, input, w.ns, w.links)
    ensures Ready(ctx.pt, w) && CanProcess(ctx, w, w.queue[0])
    ensures LinksBuilt(ctx.pt, ctx.keep, input, Step(ctx, w).ns, Step(ctx, w).links)
  {
    StepBasics(ctx, w, done);
    ReductionBuilt(g, input, ctx, w, w.queue[0]);
    var w' := Step(ctx, w);
    forall r: nat, l: nat ensures LinkBuilt(ctx.pt, ctx.keep, input, w'.ns, w'.links, r, l) {
      assert LinkBuilt(ctx.pt, ctx.keep, input, w.ns, w.links, r, l);
      StepLinkBuilt(input, ctx, w, r, l);
    }
  }

  lemma StepLinkBuilt(input: seq<nat>, ctx: Context, w: Work, r: nat, l: nat)
    requires Shape(ctx, w) && Ready(ctx.pt, w) && w.queue != [] && CanProcess(ctx, w, w.queue[0])
    requires ctx.token == TokenAt(input, ctx.column) && |w.ns| <= |Step(ctx, w).ns|
    requires forall u: nat :: u < |w.ns| ==>
               Step(ctx, w).ns[u].state == w.ns[u].state && Step(ctx, w).ns[u].column == w.ns[u].column
    requires LinkBuilt(ctx.pt, ctx.keep, input, w.ns, w.links, r, l)
    requires var p := w.queue[0];
             var v, s := ReducedValue(w), w.ns[p.chain[0]].state;
             && Beyond(ctx.pt, s, v) == Some(ctx.pt.goto[(s, LhsOf(ctx.pt, p.prod))])
             && (ctx.keep(LhsOf(ctx.pt, p.prod), v) ==> CanBuild(ctx.pt, ctx.keep, s, v, ctx.token))
    ensures LinkBuilt(ctx.pt, ctx.keep, input, Step(ctx, w).ns, Step(ctx, w).links, r, l)
  {
    if (r, l) in Step(ctx, w).links {
      StepValue(ctx, w, r, l);
      assert (r, l) in w.links ==> Linked(w.ns, r, l) && LinkOK(ctx.pt, w.ns, r, l);
    }
  }

  lemma ShiftBuilds(input: seq<nat>, ctx: Context, w: Work, w': Work)
    requires Shape(ctx, w) && ShiftedFrom(ctx, w, Members(w.tp), w')
    requires LinksBuilt(ctx.pt, ctx.keep, input, w.ns, w.links)
    ensures LinksBuilt(ctx.pt, ctx.keep, input, w'.ns, w'.links)
  {
    forall r: nat, l: nat ensures LinkBuilt(ctx.pt, ctx.keep, input, w'.ns, w'.links, r, l) {
      assert LinkBuilt(ctx.pt, ctx.keep, input, w.ns, w.links, r, l);
      assert (r, l) in w.links ==> Linked(w.ns, r, l) && LinkOK(ctx.pt, w.ns, r, l);
      if (r, l) in w'.links && (r, l) !in w.links {
        assert IsShiftLink(ctx, w, Members(w.tp), w', r, l);
        assert w'.ns[l] == w.ns[l];
      }
    }
  }

  lemma DetReduceBuilds(g: Grammar, input: seq<nat>, ctx: Context, w: Work, p: nat)
    requires AtRest(ctx, w) && CanDetReduce(ctx, w, p) && ctx.pt.prods == g.prods && ctx.column <= |input|
    requires LinksDerive(g, input, ctx.pt, w.ns, w.links) && LinksBuilt(ctx.pt, ctx.keep, input, w.ns, w.links)
    requires ctx.token == TokenAt(input, ctx.column)
    ensures DetReady(ctx, w, p)
    ensures ctx.keep(LhsOf(ctx.pt, p), Node(p, ValuesOf(w.links, PoppedChain(ctx, w, p)))) ==>
              LinksBuilt(ctx.pt, ctx.keep, input, DetReduce(ctx, w, p).ns, DetReduce(ctx, w, p).links)
  {
    PoppedIsOnlyPath(ctx, w, p);
    var chain := PoppedChain(ctx, w, p);
    ReductionBuilt(g, input, ctx, w, Path(p, w.ns[chain[0]].column, chain));
    var w' := DetReduce(ctx, w, p);
    if ctx.keep(LhsOf(ctx.pt, p), Node(p, ValuesOf(w.links, chain))) {
      forall r: nat, l: nat ensures LinkBuilt(ctx.pt, ctx.keep, input, w'.ns, w'.links, r, l) {
        assert LinkBuilt(ctx.pt, ctx.keep, input, w.ns, w.links, r, l);
        assert (r, l) in w.links ==> Linked(w.ns, r, l) && LinkOK(ctx.pt, w.ns, r, l);
      }
    }
  }

  // ---------------------------------------------------------------- a veto leaves no trace

  /** A reduction that the user cancels is taken off the queue, and its values count as handed out. */
  lemma VetoedStep(ctx: Context, w: Work)
    requires Ready(ctx.pt, w) && w.queue != [] && CanProcess(ctx, w, w.queue[0])
    requires !ctx.keep(LhsOf(ctx.pt, w.queue[0].prod), ReducedValue(w))
    ensures var w' := Step(ctx, w);
            && w'.ns == w.ns && w'.tp == w.tp && w'.ytm == w.ytm && w'.queue == w.queue[1..]
            && w'.links.Keys == w.links.Keys && forall e :: e in w.links ==> w'.links[e].sval == w.links[e].sval
  {
    YieldKeepsLinks(w.links, w.queue[0].chain);
  }

  /** The user has kept every node of the tree. */
  ghost predicate AllKept(pt: ParseTables, keep: (nat, Tree) -> bool, tree: Tree) {
    match tree
    case Leaf(_) => true
    case Node(p, kids) => p < |pt.prods| && keep(pt.prods[p].lhs, tree) && EachKept(pt, keep, kids)
    case Alt(left, right) => AllKept(pt, keep, left) && AllKept(pt, keep, right)
  }

  ghost predicate EachKept(pt: ParseTables, keep: (nat, Tree) -> bool, f: Forest) {
    match f
    case Nil => true
    case Cons(head, tail) => AllKept(pt, keep, head) && EachKept(pt, keep, tail)
  }

  lemma {:induction false} BuiltIsKept(pt: ParseTables, keep: (nat, Tree) -> bool, s: nat, tree: Tree, la: nat)
    requires CanBuild(pt, keep, s, tree, la)
    ensures AllKept(pt, keep, tree)
    decreases tree
  {
    match tree
    case Leaf(_) =>
    case Node(_, kids) => BuiltAreKept(pt, keep, s, kids, la);
    case Alt(left, right) =>
      BuiltIsKept(pt, keep, s, left, la);
      BuiltIsKept(pt, keep, s, right, la);
  }

  lemma {:induction false} BuiltAreKept(pt: ParseTables, keep: (nat, Tree) -> bool, s: nat, f: Forest, la: nat)
    requires CanBuildAll(pt, keep, s, f, la)
    ensures EachKept(pt, keep, f)
    decreases f
  {
    match f
    case Nil =>
    case Cons(head, tail) =>
      BuiltIsKept(pt, keep, s, head, NextToken(Yields(tail), la));
      BuiltAreKept(pt, keep, Beyond(pt, s, head).value, tail, la);
  }
}
