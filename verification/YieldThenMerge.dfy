/** With an exact nonterminal order the worklist never merges into a link it has already yielded. */
module YieldThenMerge {
  import opened Grammars
  import opened LrMachine
  import opened Gss
  import opened PathQueue
  import opened Worklist
  import opened ExactlyOnce
  import opened Derivations

  /** If A rewrites to B alone, B comes earlier; possible exactly for grammars without A =>+ A. */
  ghost predicate OrderExact(g: Grammar, pt: ParseTables) {
    forall a: nat, b: nat :: UnitStep(g, a, b) ==> OrderOf(pt, b) < OrderOf(pt, a)
  }

  /** The order recorded when a path was dequeued: its key, and the graph it was dequeued from. */
  datatype Dequeued = Dequeued(column: nat, ord: nat, nodes: nat, links: set<Edge>)

  /** A link carries the key of the reductions that make it. */
  ghost predicate LinkBefore(pt: ParseTables, ns: Pool, e: Edge, column: nat, ord: nat) {
    match (if e.0 < |ns| then SymbolOf(pt, ns[e.0].state) else None)
    case Some(N(b)) => e.1 < |ns| && KeyBefore(ns[e.1].column, OrderOf(pt, b), column, ord)
    case _ => true
  }

  /** A link of the frontier that does not go before `h`. */
  ghost predicate LinkNotBefore(pt: ParseTables, ns: Pool, tp: seq<nat>, e: Edge, h: Dequeued) {
    && e.0 < |ns| && e.0 in tp && SymbolOf(pt, ns[e.0].state).Some? && SymbolOf(pt, ns[e.0].state).value.N?
    && !LinkBefore(pt, ns, e, h.column, h.ord)
  }

  function OrdOf(pt: ParseTables, p: Path): nat {
    if p.prod < |pt.prods| then OrderOf(pt, LhsOf(pt, p.prod)) else 0
  }

  ghost predicate PathBefore(pt: ParseTables, p: Path, h: Dequeued) {
    KeyBefore(p.startColumn, OrdOf(pt, p), h.column, h.ord)
  }

  /** Since `h` was dequeued, neither a link nor a queued path onto a node that existed then goes before it. */
  ghost predicate SinceThen(ctx: Context, w: Work, h: Dequeued) {
    && h.nodes <= |w.ns|
    && (forall e :: e in h.links ==> e in w.links && e.0 < h.nodes)
    && (forall e :: e in w.links && e.1 < h.nodes && e !in h.links ==> LinkNotBefore(ctx.pt, w.ns, w.tp, e, h))
    && (forall p :: p in w.queue && p.chain != [] && p.chain[0] < h.nodes ==> !PathBefore(ctx.pt, p, h))
  }

  /** A yielded link was there when some path through it was dequeued, so it goes before that path. */
  ghost predicate YieldedBy(ctx: Context, w: Work, e: Edge, h: Dequeued) {
    e in h.links && e.1 < h.nodes && LinkBefore(ctx.pt, w.ns, e, h.column, h.ord)
  }

  ghost predicate History(ctx: Context, w: Work, log: seq<Dequeued>) {
    && (forall i :: 0 <= i < |log| ==> SinceThen(ctx, w, log[i]))
    && (forall e :: e in w.links && e.0 in w.tp && w.links[e].yieldCount > 0 ==>
              exists h :: h in log && YieldedBy(ctx, w, e, h))
  }

  ghost predicate NothingYielded(w: Work) {
    forall e :: e in w.links && e.0 in w.tp ==> w.links[e].yieldCount == 0
  }

  /** Symbols whose values span no token are nullable. */
  lemma EmptySpan(g: Grammar, input: seq<nat>, ctx: Context, w: Work, chain: seq<nat>, i: nat)
    requires Shape(ctx, w) && LinksDerive(g, input, ctx.pt, w.ns, w.links) && IsPath(w.ns, chain)
    requires i + 1 < |chain| && w.ns[chain[i]].column == w.ns[chain[i + 1]].column
    requires SymbolOf(ctx.pt, w.ns[chain[i + 1]].state).Some?
    ensures Nullable(g, SymbolOf(ctx.pt, w.ns[chain[i + 1]].state).value)
  {
    var r, l := chain[i + 1], chain[i];
    assert Linked(w.ns, r, l) && LinkDerives(g, input, ctx.pt, w.ns, w.links, r, l);
    TreeGenerates(g, w.links[(r, l)].sval, SymbolOf(ctx.pt, w.ns[r].state).value);
  }

  /** A path goes strictly after each of its links onto the current column: if both start in the same
      column, everything else on the path is empty and the left-hand side derives the link's symbol. */
  lemma PathAfterItsLinks(g: Grammar, input: seq<nat>, ctx: Context, w: Work, p: Path, i: nat)
    requires Shape(ctx, w) && LinksDerive(g, input, ctx.pt, w.ns, w.links) && OrderExact(g, ctx.pt)
    requires ctx.pt.prods == g.prods && Enabled(ctx.pt, ctx.token, w.ns, w.tp, p)
    requires i + 1 < |p.chain| && w.ns[p.chain[i + 1]].column == ctx.column
    ensures LinkBefore(ctx.pt, w.ns, (p.chain[i + 1], p.chain[i]), p.startColumn, OrdOf(ctx.pt, p))
  {
    var chain := p.chain;
    EnabledSpells(ctx, w, p);
    ColumnsGrow(ctx.pt, w.ns, chain, 0, i);
    var rhs := g.prods[p.prod].rhs;
    assert SymbolOf(ctx.pt, w.ns[chain[i + 1]].state) == Some(rhs[i]);
    if rhs[i].N? && w.ns[chain[0]].column == w.ns[chain[i]].column {
      forall j | 0 <= j < |rhs| && j != i ensures Nullable(g, rhs[j]) {
        if j < i {
          ColumnsGrow(ctx.pt, w.ns, chain, 0, j);
          ColumnsGrow(ctx.pt, w.ns, chain, j, j + 1);
          ColumnsGrow(ctx.pt, w.ns, chain, j + 1, i);
        } else {
          ColumnsGrow(ctx.pt, w.ns, chain, i + 1, j);
          ColumnsGrow(ctx.pt, w.ns, chain, j, j + 1);
        }
        assert SymbolOf(ctx.pt, w.ns[chain[j + 1]].state) == Some(rhs[j]);
        EmptySpan(g, input, ctx, w, chain, j);
      }
      assert UnitStepBy(g, g.prods[p.prod].lhs, rhs[i].n, p.prod, i);
      assert UnitStep(g, g.prods[p.prod].lhs, rhs[i].n);
    }
  }

  /** The entry for the path at the head of the queue. */
  function Entry(ctx: Context, w: Work): Dequeued
    requires w.queue != []
  {
    Dequeued(w.queue[0].startColumn, OrdOf(ctx.pt, w.queue[0]), |w.ns|, w.links.Keys)
  }

  /** The dequeued path does not go before any earlier one that saw its left edge. */
  lemma HeadNotBefore(ctx: Context, w: Work, done: iset<Path>, log: seq<Dequeued>)
    requires Shape(ctx, w) && Once(ctx, w, done) && w.queue != [] && History(ctx, w, log)
    ensures w.queue[0].chain != []
    ensures forall h :: h in log + [Entry(ctx, w)] && w.queue[0].chain[0] < h.nodes ==>
              !PathBefore(ctx.pt, w.queue[0], h)
    ensures forall p :: p in w.queue ==> !PathBefore(ctx.pt, p, Entry(ctx, w))
  {
    var p := w.queue[0];
    assert Enabled(ctx.pt, ctx.token, w.ns, w.tp, p);
    forall h | h in log && p.chain[0] < h.nodes ensures !PathBefore(ctx.pt, p, h) {
      var i :| 0 <= i < |log| && log[i] == h;
    }
    forall q | q in w.queue ensures !PathBefore(ctx.pt, q, Entry(ctx, w)) {
      var j :| 0 <= j < |w.queue| && w.queue[j] == q;
      assert j > 0 ==> !GoesBefore(ctx.pt, w.queue[j], w.queue[0]);
    }
  }

  /** The links of the dequeued path go before it, whatever yielded them earlier. */
  lemma YieldedNow(g: Grammar, input: seq<nat>, ctx: Context, w: Work, done: iset<Path>, log: seq<Dequeued>, e: Edge)
      returns (h: Dequeued)
    requires Shape(ctx, w) && Once(ctx, w, done) && w.queue != [] && History(ctx, w, log)
    requires LinksDerive(g, input, ctx.pt, w.ns, w.links) && OrderExact(g, ctx.pt) && ctx.pt.prods == g.prods
    requires e in w.links && e.0 in w.tp && YieldLinks(w.links, w.queue[0].chain).Keys == w.links.Keys
    requires YieldLinks(w.links, w.queue[0].chain)[e].yieldCount > 0
    ensures h in log + [Entry(ctx, w)] && YieldedBy(ctx, w, e, h)
  {
    var p := w.queue[0];
    YieldKeepsLinks(w.links, p.chain);
    if w.links[e].yieldCount > 0 {
      h :| h in log && YieldedBy(ctx, w, e, h);
    } else {
      var i, j :| 0 <= i < j < |p.chain| && j == i + 1 && p.chain[j] == e.0 && p.chain[i] == e.1;
      assert Enabled(ctx.pt, ctx.token, w.ns, w.tp, p);
      PathAfterItsLinks(g, input, ctx, w, p, i);
      h := Entry(ctx, w);
    }
  }

  /** No step of the worklist merges into a link that was already yielded. */
  lemma StepNeverMergesYielded(g: Grammar, input: seq<nat>, ctx: Context, w: Work, done: iset<Path>, log: seq<Dequeued>)
    requires Shape(ctx, w) && Once(ctx, w, done) && w.queue != [] && History(ctx, w, log)
    requires LinksDerive(g, input, ctx.pt, w.ns, w.links) && OrderExact(g, ctx.pt) && ctx.pt.prods == g.prods
    ensures Ready(ctx.pt, w) && CanProcess(ctx, w, w.queue[0]) && Step(ctx, w).ytm == w.ytm
  {
    ReadyToShift(ctx, w, done);
    if MergesInto(ctx, w) {
      MergedLinkNotYielded(g, input, ctx, w, done, log, MergeTarget(ctx, w));
    }
    StepCounts(ctx, w);
  }

  ghost predicate MergesInto(ctx: Context, w: Work)
    requires w.queue != [] && CanProcess(ctx, w, w.queue[0]) && forall i :: 0 <= i < |w.tp| ==> w.tp[i] < |w.ns|
  {
    OutcomeOf(ctx, Yielded(w), w.queue[0].chain[0], LhsOf(ctx.pt, w.queue[0].prod)) == Merged
  }

  ghost function MergeTarget(ctx: Context, w: Work): (r: nat)
    requires w.queue != [] && CanProcess(ctx, w, w.queue[0]) && forall i :: 0 <= i < |w.tp| ==> w.tp[i] < |w.ns|
    requires MergesInto(ctx, w)
    ensures r in w.tp && r < |w.ns| && Linked(w.ns, r, w.queue[0].chain[0])
    ensures w.ns[r].state == ctx.pt.goto[(w.ns[w.queue[0].chain[0]].state, LhsOf(ctx.pt, w.queue[0].prod))]
  {
    FindTop(w.ns, w.tp, ctx.pt.goto[(w.ns[w.queue[0].chain[0]].state, LhsOf(ctx.pt, w.queue[0].prod))]).value
  }

  /** The counter moves only when the link merged into was yielded. */
  lemma StepCounts(ctx: Context, w: Work)
    requires Ready(ctx.pt, w) && w.queue != [] && CanProcess(ctx, w, w.queue[0])
    requires Ready(ctx.pt, Yielded(w)) && (forall i :: 0 <= i < |w.tp| ==> w.tp[i] < |w.ns|)
    requires MergesInto(ctx, w) ==>
               var e := (MergeTarget(ctx, w), w.queue[0].chain[0]);
               e in Yielded(w).links && Yielded(w).links[e].yieldCount == 0
    ensures Step(ctx, w).ytm == w.ytm
  {
  }

  /** The link a reduction would merge into has the key of that reduction, so no path dequeued
      up to now can have yielded it. */
  lemma MergedLinkNotYielded(g: Grammar, input: seq<nat>, ctx: Context, w: Work, done: iset<Path>, log: seq<Dequeued>,
                             r: nat)
    requires Shape(ctx, w) && Once(ctx, w, done) && w.queue != [] && History(ctx, w, log)
    requires LinksDerive(g, input, ctx.pt, w.ns, w.links) && OrderExact(g, ctx.pt) && ctx.pt.prods == g.prods
    requires CanProcess(ctx, w, w.queue[0]) && r in w.tp && (r, w.queue[0].chain[0]) in w.links
    requires w.ns[r].state == ctx.pt.goto[(w.ns[w.queue[0].chain[0]].state, LhsOf(ctx.pt, w.queue[0].prod))]
    ensures (r, w.queue[0].chain[0]) in Yielded(w).links && Yielded(w).links[(r, w.queue[0].chain[0])].yieldCount == 0
  {
    var p := w.queue[0];
    YieldKeepsLinks(w.links, p.chain);
    var e := (r, p.chain[0]);
    assert GotoValid(ctx.pt, w.ns[p.chain[0]].state, LhsOf(ctx.pt, p.prod));
    assert Enabled(ctx.pt, ctx.token, w.ns, w.tp, p);
    if YieldLinks(w.links, p.chain)[e].yieldCount > 0 {
      var h := YieldedNow(g, input, ctx, w, done, log, e);
      HeadNotBefore(ctx, w, done, log);
      assert false;
    }
  }

  /** A newly enabled path onto a node that existed at `h` contains a link, added since, onto such a node. */
  lemma {:induction false} FindCrossing(ns: Pool, chain: seq<nat>, n: nat, k: nat) returns (i: nat)
    requires IsPath(ns, chain) && chain[0] < n && k < |chain| && chain[k] >= n
    ensures i + 1 <= k && chain[i] < n && chain[i + 1] >= n
    decreases k
  {
    if chain[k - 1] < n {
      i := k - 1;
    } else {
      i := FindCrossing(ns, chain, n, k - 1);
    }
  }

  lemma NewPathNotBefore(g: Grammar, input: seq<nat>, ctx: Context, w: Work, h: Dequeued, q: Path, i: nat)
    requires Shape(ctx, w) && Enabled(ctx.pt, ctx.token, w.ns, w.tp, q) && i + 1 < |q.chain| && q.chain[0] < h.nodes
    requires LinksDerive(g, input, ctx.pt, w.ns, w.links) && OrderExact(g, ctx.pt) && ctx.pt.prods == g.prods
    requires forall e :: e in h.links ==> e.0 < h.nodes
    requires forall e :: e in w.links && e.1 < h.nodes && e !in h.links ==> LinkNotBefore(ctx.pt, w.ns, w.tp, e, h)
    requires (q.chain[i + 1], q.chain[i]) !in h.links
    ensures !PathBefore(ctx.pt, q, h)
  {
    if q.chain[i] >= h.nodes {
      var j := FindCrossing(w.ns, q.chain, h.nodes, i);
      AfterNewLink(g, input, ctx, w, h, q, j);
    } else {
      AfterNewLink(g, input, ctx, w, h, q, i);
    }
  }

  lemma AfterNewLink(g: Grammar, input: seq<nat>, ctx: Context, w: Work, h: Dequeued, q: Path, i: nat)
    requires Shape(ctx, w) && Enabled(ctx.pt, ctx.token, w.ns, w.tp, q) && i + 1 < |q.chain|
    requires LinksDerive(g, input, ctx.pt, w.ns, w.links) && OrderExact(g, ctx.pt) && ctx.pt.prods == g.prods
    requires forall e :: e in w.links && e.1 < h.nodes && e !in h.links ==> LinkNotBefore(ctx.pt, w.ns, w.tp, e, h)
    requires q.chain[i] < h.nodes && (q.chain[i + 1], q.chain[i]) !in h.links
    ensures !PathBefore(ctx.pt, q, h)
  {
    var e := (q.chain[i + 1], q.chain[i]);
    assert Linked(w.ns, e.0, e.1);
    assert LinkNotBefore(ctx.pt, w.ns, w.tp, e, h);
    PathAfterItsLinks(g, input, ctx, w, q, i);
  }

  /** A newly enabled path with a nonempty right-hand side, or onto an old node, uses the new link. */
  lemma NewLinkOnPath(ctx: Context, w: Work, w': Work, p: Path, r: nat, q: Path) returns (i: nat)
    requires GraphOK(ctx.pt, w.ns) && (forall u :: u in w.tp ==> u < |w.ns|) && Grew(ctx, w, w', p, r)
    requires Enabled(ctx.pt, ctx.token, w'.ns, w'.tp, q) && !Enabled(ctx.pt, ctx.token, w.ns, w.tp, q)
    requires q.chain[0] < |w.ns|
    ensures i + 1 < |q.chain| && q.chain[i + 1] == r && q.chain[i] == p.chain[0]
  {
    var l := p.chain[0];
    if r < |w.ns| {
      EnabledByLink(ctx.pt, ctx.token, w.ns, w'.ns, w.tp, r, l, q);
      var j, k :| 0 <= j < k < |q.chain| && k == j + 1 && q.chain[k] == r && q.chain[j] == l;
      i := j;
    } else {
      EnabledByNode(ctx.pt, ctx.token, w.ns, w'.ns, w.tp, l, q);
      i := NewNodeOnPath(w.ns, w'.ns, l, q);
    }
  }

  /** From the new node a path can only go on over its one link. */
  lemma NewNodeOnPath(ns: Pool, ns': Pool, l: nat, q: Path) returns (i: nat)
    requires Grown(ns, ns', |ns|, l) && IsPath(ns', q.chain) && Last(q.chain) == |ns| && q.chain[0] < |ns|
    ensures i + 1 < |q.chain| && q.chain[i + 1] == |ns| && q.chain[i] == l
  {
    i := |q.chain| - 2;
    assert Linked(ns', q.chain[i + 1], q.chain[i]);
  }

  lemma SinceBefore(ctx: Context, w: Work, done: iset<Path>, log: seq<Dequeued>, h: Dequeued)
    requires Shape(ctx, w) && Once(ctx, w, done) && w.queue != [] && History(ctx, w, log)
    requires h in log + [Entry(ctx, w)]
    ensures SinceThen(ctx, w, h) && HeadAfter(ctx, w, h)
  {
    HeadNotBefore(ctx, w, done, log);
    if h in log {
      var i :| 0 <= i < |log| && log[i] == h;
    } else {
      EntrySince(ctx, w, done, log);
    }
  }

  /** The path about to be processed does not go before `h`, if `h` saw its left edge. */
  ghost predicate HeadAfter(ctx: Context, w: Work, h: Dequeued) {
    && w.queue != [] && w.queue[0].chain != []
    && (w.queue[0].chain[0] < h.nodes ==> !PathBefore(ctx.pt, w.queue[0], h))
  }

  lemma SinceStays(g: Grammar, input: seq<nat>, ctx: Context, w: Work, done: iset<Path>, h: Dequeued)
    requires Shape(ctx, w) && Once(ctx, w, done) && w.queue != [] && SinceThen(ctx, w, h) && HeadAfter(ctx, w, h)
    requires LinksDerive(g, input, ctx.pt, w.ns, w.links) && OrderExact(g, ctx.pt) && ctx.pt.prods == g.prods
    requires ctx.column <= |input|
    ensures Ready(ctx.pt, w) && CanProcess(ctx, w, w.queue[0])
    ensures SinceThen(ctx, Step(ctx, w), h)
  {
    var grew, r := StepOnce(ctx, w, done);
    StepDerives(g, input, ctx, w, done);
    if grew {
      SinceGrows(g, input, ctx, w, Step(ctx, w), h, w.queue[0], r);
    } else {
      SinceQuiet(ctx, w, Step(ctx, w), h);
    }
  }

  lemma SinceQuiet(ctx: Context, w: Work, w': Work, h: Dequeued)
    requires SinceThen(ctx, w, h) && Quiet(w, w')
    ensures SinceThen(ctx, w', h)
  {
    forall e | e in w'.links && e.1 < h.nodes && e !in h.links ensures LinkNotBefore(ctx.pt, w'.ns, w'.tp, e, h) {
      assert e in w.links.Keys;
    }
  }

  lemma SinceGrows(g: Grammar, input: seq<nat>, ctx: Context, w: Work, w': Work, h: Dequeued, p: Path, r: nat)
    requires Shape(ctx, w) && Shape(ctx, w') && SinceThen(ctx, w, h) && w.queue != []
    requires Enabled(ctx.pt, ctx.token, w.ns, w.tp, p) && Grew(ctx, w, w', p, r) && QueueGrew(ctx, w, w')
    requires p.chain[0] < h.nodes ==> !PathBefore(ctx.pt, p, h)
    requires LinksDerive(g, input, ctx.pt, w'.ns, w'.links) && OrderExact(g, ctx.pt) && ctx.pt.prods == g.prods
    ensures SinceThen(ctx, w', h)
  {
    assert GotoValid(ctx.pt, w.ns[p.chain[0]].state, LhsOf(ctx.pt, p.prod));
    LinksSince(ctx, w, w', h, p, r);
    assert !Linked(w.ns, r, p.chain[0]);
    forall q | q in w'.queue && q.chain != [] && q.chain[0] < h.nodes ensures !PathBefore(ctx.pt, q, h) {
      if q in w.queue[1..] {
        assert q in w.queue;
      } else {
        var i := NewLinkOnPath(ctx, w, w', p, r, q);
        NewPathNotBefore(g, input, ctx, w', h, q, i);
      }
    }
  }

  lemma EntrySince(ctx: Context, w: Work, done: iset<Path>, log: seq<Dequeued>)
    requires Shape(ctx, w) && Once(ctx, w, done) && w.queue != [] && History(ctx, w, log)
    ensures SinceThen(ctx, w, Entry(ctx, w))
  {
    HeadNotBefore(ctx, w, done, log);
    forall e | e in w.links ensures e.0 < |w.ns| {
      assert Linked(w.ns, e.0, e.1);
    }
  }

  lemma LinksSince(ctx: Context, w: Work, w': Work, h: Dequeued, p: Path, r: nat)
    requires SinceThen(ctx, w, h) && Grew(ctx, w, w', p, r) && p.startColumn == w.ns[p.chain[0]].column
    requires GotoValid(ctx.pt, w.ns[p.chain[0]].state, LhsOf(ctx.pt, p.prod))
    requires p.chain[0] < h.nodes ==> !PathBefore(ctx.pt, p, h)
    ensures forall e :: e in w'.links && e.1 < h.nodes && e !in h.links ==> LinkNotBefore(ctx.pt, w'.ns, w'.tp, e, h)
  {
    forall e | e in w'.links && e.1 < h.nodes && e !in h.links ensures LinkNotBefore(ctx.pt, w'.ns, w'.tp, e, h) {
      if e != (r, p.chain[0]) {
        assert LinkNotBefore(ctx.pt, w.ns, w.tp, e, h);
      }
    }
  }

  lemma YieldedStays(g: Grammar, input: seq<nat>, ctx: Context, w: Work, done: iset<Path>, log: seq<Dequeued>, e: Edge)
    requires Shape(ctx, w) && Once(ctx, w, done) && w.queue != [] && History(ctx, w, log)
    requires LinksDerive(g, input, ctx.pt, w.ns, w.links) && OrderExact(g, ctx.pt) && ctx.pt.prods == g.prods
    requires Ready(ctx.pt, w) && CanProcess(ctx, w, w.queue[0]) && |w.ns| <= |Step(ctx, w).ns|
    requires forall u: nat :: u < |w.ns| ==> SameNode(w, Step(ctx, w), u)
    requires e in Step(ctx, w).links && e.0 in Step(ctx, w).tp && Step(ctx, w).links[e].yieldCount > 0
    ensures exists h :: h in log + [Entry(ctx, w)] && YieldedBy(ctx, Step(ctx, w), e, h)
  {
    StepYields(ctx, w, e);
    assert Linked(w.ns, e.0, e.1) && LinkOK(ctx.pt, w.ns, e.0, e.1);
    var h := YieldedNow(g, input, ctx, w, done, log, e);
    assert SameNode(w, Step(ctx, w), e.0) && SameNode(w, Step(ctx, w), e.1);
    assert YieldedBy(ctx, Step(ctx, w), e, h);
  }

  ghost predicate SameNode(w: Work, w': Work, u: nat) {
    u < |w.ns| && u < |w'.ns| && w'.ns[u].state == w.ns[u].state && w'.ns[u].column == w.ns[u].column
  }

  /** The history is kept by every step. */
  lemma StepHistory(g: Grammar, input: seq<nat>, ctx: Context, w: Work, done: iset<Path>, log: seq<Dequeued>)
    requires Shape(ctx, w) && Once(ctx, w, done) && w.queue != [] && History(ctx, w, log)
    requires LinksDerive(g, input, ctx.pt, w.ns, w.links) && OrderExact(g, ctx.pt) && ctx.pt.prods == g.prods
    requires ctx.column <= |input|
    ensures Ready(ctx.pt, w) && CanProcess(ctx, w, w.queue[0])
    ensures History(ctx, Step(ctx, w), log + [Entry(ctx, w)])
  {
    StepSameNodes(ctx, w, done);
    var w', log' := Step(ctx, w), log + [Entry(ctx, w)];
    forall i | 0 <= i < |log'| ensures SinceThen(ctx, w', log'[i]) {
      SinceBefore(ctx, w, done, log, log'[i]);
      SinceStays(g, input, ctx, w, done, log'[i]);
    }
    forall e | e in w'.links && e.0 in w'.tp && w'.links[e].yieldCount > 0
      ensures exists h :: h in log' && YieldedBy(ctx, w', e, h)
    {
      YieldedStays(g, input, ctx, w, done, log, e);
    }
  }

  lemma StepSameNodes(ctx: Context, w: Work, done: iset<Path>)
    requires Shape(ctx, w) && Once(ctx, w, done) && w.queue != []
    ensures Ready(ctx.pt, w) && CanProcess(ctx, w, w.queue[0]) && |w.ns| <= |Step(ctx, w).ns|
    ensures forall u: nat :: u < |w.ns| ==> SameNode(w, Step(ctx, w), u)
  {
    var grew, r := StepOnce(ctx, w, done);
  }

  /** A link that counts as yielded after a step was there before, on the frontier, and yielded by then. */
  lemma StepYields(ctx: Context, w: Work, e: Edge)
    requires Shape(ctx, w) && Ready(ctx.pt, w) && w.queue != [] && CanProcess(ctx, w, w.queue[0])
    requires e in Step(ctx, w).links && e.0 in Step(ctx, w).tp && Step(ctx, w).links[e].yieldCount > 0
    ensures e in w.links && e.0 in w.tp
    ensures YieldLinks(w.links, w.queue[0].chain).Keys == w.links.Keys
    ensures YieldLinks(w.links, w.queue[0].chain)[e].yieldCount > 0
  {
    var w1, p := Yielded(w), w.queue[0];
    YieldKeepsLinks(w.links, p.chain);
    if ctx.keep(LhsOf(ctx.pt, p.prod), ReducedValue(w)) {
      match OutcomeOf(ctx, w1, p.chain[0], LhsOf(ctx.pt, p.prod))
      case Dropped =>
      case Merged =>
      case NewLink =>
      case NewNode =>
        assert e in w.links ==> Linked(w.ns, e.0, e.1);
    }
  }

  // ---------------------------------------------------------------- counting

  /** A link whose value has been handed out, by this reduction or before, gets another value. */
  ghost predicate MergesLate(w: Work, w': Work) {
    w.queue != [] && exists e :: ChangesYielded(w, w', e)
  }

  ghost predicate ChangesYielded(w: Work, w': Work, e: Edge)
    requires w.queue != []
  {
    && e in w.links && (w.links[e].yieldCount > 0 || Uses(w.queue[0].chain, e))
    && e in w'.links && w'.links[e].sval != w.links[e].sval
  }

  /** Each step counts one exactly if it does that, however often the value has been handed out. */
  lemma StepCountsLate(ctx: Context, w: Work)
    requires Shape(ctx, w) && Ready(ctx.pt, w) && w.queue != [] && CanProcess(ctx, w, w.queue[0])
    ensures Step(ctx, w).ytm == w.ytm + if MergesLate(w, Step(ctx, w)) then 1 else 0
  {
    var w1, p, w' := Yielded(w), w.queue[0], Step(ctx, w);
    YieldKeepsLinks(w.links, p.chain);
    var l0, b := p.chain[0], LhsOf(ctx.pt, p.prod);
    if ctx.keep(b, ReducedValue(w)) {
      match OutcomeOf(ctx, w1, l0, b)
      case Dropped =>
      case Merged =>
        var e := (FindTop(w1.ns, w1.tp, ctx.pt.goto[(w.ns[l0].state, b)]).value, l0);
        assert Linked(w1.ns, e.0, e.1);
        assert w'.links[e].sval == Alt(w.links[e].sval, ReducedValue(w));
        assert w1.links[e].yieldCount > 0 <==> ChangesYielded(w, w', e);
      case NewLink =>
        assert !Linked(w.ns, FindTop(w1.ns, w1.tp, ctx.pt.goto[(w.ns[l0].state, b)]).value, l0);
      case NewNode =>
        assert !Linked(w.ns, |w.ns|, l0);
    }
  }

  /** One step after the other. */
  ghost predicate WorkRun(ctx: Context, run: seq<Work>) {
    run != [] && Chain(Steps(ctx), run)
  }

  ghost predicate Chain<A>(next: (A, A) -> bool, run: seq<A>) {
    forall i, j :: 0 <= i < j < |run| && j == i + 1 ==> next(run[i], run[j])
  }

  lemma ChainOn<A>(next: (A, A) -> bool, run: seq<A>, x: A)
    requires run != [] && Chain(next, run) && next(run[|run| - 1], x)
    ensures Chain(next, run + [x])
  {
    var longer := run + [x];
    forall i, j | 0 <= i < j < |longer| && j == i + 1 ensures next(longer[i], longer[j]) {
      assert j < |run| ==> longer[i] == run[i] && longer[j] == run[j];
    }
  }

  /** The end of a chain and what precedes it. */
  lemma ChainBack<A>(next: (A, A) -> bool, run: seq<A>)
    requires |run| > 1 && Chain(next, run)
    ensures Chain(next, run[..|run| - 1]) && next(run[|run| - 2], run[|run| - 1])
  {
    var i, j := |run| - 2, |run| - 1;
    assert next(run[i], run[j]);
  }

  ghost function Steps(ctx: Context): (Work, Work) -> bool {
    (w, w') => StepsTo(ctx, w, w')
  }

  ghost predicate StepsTo(ctx: Context, w: Work, w': Work) {
    Shape(ctx, w) && Ready(ctx.pt, w) && w.queue != [] && CanProcess(ctx, w, w.queue[0]) && w' == Step(ctx, w)
  }

  ghost function LateMerges(run: seq<Work>): nat {
    if |run| <= 1 then 0
    else LateMerges(run[..|run| - 1]) + if MergesLate(run[|run| - 2], run[|run| - 1]) then 1 else 0
  }

  /** Such a run leads from one worklist to another, and the counter tells its late merges. */
  ghost predicate CountedRun(ctx: Context, start: Work, run: seq<Work>, w: Work) {
    WorkRun(ctx, run) && run[0] == start && Last(run) == w && w.ytm == start.ytm + LateMerges(run)
  }

  lemma OneMoreStep(ctx: Context, start: Work, run: seq<Work>, w: Work, w': Work)
    requires CountedRun(ctx, start, run, w) && StepsTo(ctx, w, w')
    requires w'.ytm == w.ytm + if MergesLate(w, w') then 1 else 0
    ensures CountedRun(ctx, start, run + [w'], w')
  {
    var longer := run + [w'];
    assert longer[..|longer| - 1] == run && longer[|longer| - 2] == w && longer[|longer| - 1] == w';
    ChainOn(Steps(ctx), run, w');
  }
}
