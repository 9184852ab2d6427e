/** Every enabled reduction path is queued exactly once, and the worklist always finishes. */
module ExactlyOnce {
  import opened Grammars
  import opened LrMachine
  import opened Gss
  import opened PathQueue
  import opened Worklist

  ghost predicate LinksExact(ns: Pool, links: Links) {
    forall r: nat, l: nat :: Linked(ns, r, l) <==> (r, l) in links
  }

  /** The shape of the graph-structured stack while the worklist runs. */
  ghost predicate Shape(ctx: Context, w: Work) {
    && ValidTables(ctx.pt) && GraphOK(ctx.pt, w.ns) && FrontierOK(w.ns, w.tp, ctx.column)
    && LinksExact(w.ns, w.links)
  }

  /** Queued paths are distinct and not done; together they are all enabled paths. */
  ghost predicate Once(ctx: Context, w: Work, done: iset<Path>) {
    && Sorted(ctx.pt, w.queue) && Distinct(w.queue)
    && (forall p :: p in w.queue ==> p !in done)
    && (forall p :: p in w.queue || p in done <==> Enabled(ctx.pt, ctx.token, w.ns, w.tp, p))
  }

  lemma ShapeReady(ctx: Context, w: Work)
    requires Shape(ctx, w) && ProdsOK(ctx.pt, w.queue)
    ensures Ready(ctx.pt, w)
  {
    TablesInRange(ctx.pt);
  }

  /** The path of an enabled reduction spells its right-hand side. */
  lemma EnabledSpells(ctx: Context, w: Work, p: Path)
    requires Shape(ctx, w) && Enabled(ctx.pt, ctx.token, w.ns, w.tp, p)
    ensures CanProcess(ctx, w, p)
    ensures forall i :: 0 < i < |p.chain| ==>
              SymbolOf(ctx.pt, w.ns[p.chain[i]].state) == Some(ctx.pt.prods[p.prod].rhs[i - 1])
  {
    PathStates(ctx.pt, w.ns, p.chain);
    var st := StatesOf(w.ns, p.chain);
    assert CanReduce(ActionEntry(ctx.pt, Last(st), ctx.token), p.prod);
    assert SpellsRhs(ctx.pt, st, p.prod);
    forall i | 0 < i < |p.chain|
      ensures SymbolOf(ctx.pt, w.ns[p.chain[i]].state) == Some(ctx.pt.prods[p.prod].rhs[i - 1])
    {
      assert st[i] == w.ns[p.chain[i]].state;
    }
  }

  /** Nothing but the link values and the queue changed. */
  ghost predicate Quiet(w: Work, w': Work) {
    w.queue != [] && w'.ns == w.ns && w'.tp == w.tp && w'.queue == w.queue[1..] && w'.links.Keys == w.links.Keys
  }

  /** A link from `r` to the left edge of the dequeued path was added. */
  ghost predicate Grew(ctx: Context, w: Work, w': Work, p: Path, r: nat) {
    && p.chain != [] && Grown(w.ns, w'.ns, r, p.chain[0])
    && CanProcess(ctx, w, p)
    && r in w'.tp && w'.ns[r].state == ctx.pt.goto[(w.ns[p.chain[0]].state, LhsOf(ctx.pt, p.prod))]
    && w'.ns[r].column == ctx.column
    && w'.tp == (if r < |w.ns| then w.tp else w.tp + [r])
    && w'.links.Keys == w.links.Keys + {(r, p.chain[0])}
  }

  ghost predicate QueueGrew(ctx: Context, w: Work, w': Work) {
    && w.queue != [] && Sorted(ctx.pt, w'.queue) && Distinct(w'.queue)
    && forall p :: p in w'.queue <==>
         p in w.queue[1..] || (Enabled(ctx.pt, ctx.token, w'.ns, w'.tp, p)
                               && !Enabled(ctx.pt, ctx.token, w.ns, w.tp, p))
  }

  lemma LinkShape(ctx: Context, w: Work, r: nat, l: nat, b: nat, v: Tree)
    requires Shape(ctx, w) && r < |w.ns| && r in w.tp && l < |w.ns| && l !in w.ns[r].sibs
    requires (w.ns[l].state, b) in ctx.pt.goto && w.ns[r].state == ctx.pt.goto[(w.ns[l].state, b)]
    ensures Grown(w.ns, Link(w, r, l, v).ns, r, l) && Shape(ctx, Link(w, r, l, v))
  {
    var w' := Link(w, r, l, v);
    assert GotoValid(ctx.pt, w.ns[l].state, b);
    assert NodeOK(ctx.pt, w.ns, 0);
    WithSibLinks(ctx.pt, w.ns, w'.ns, r, l);
    forall u: nat, x: nat ensures LinkOK(ctx.pt, w'.ns, u, x) && FrontierClosed(w'.ns, w'.tp, u, x) {
      assert LinkOK(ctx.pt, w.ns, u, x) && FrontierClosed(w.ns, w.tp, u, x);
    }
  }

  lemma WithSibLinks(pt: ParseTables, ns: Pool, ns': Pool, r: nat, l: nat)
    requires GraphOK(pt, ns) && 0 < r < |ns| && l < |ns| && l !in ns[r].sibs && ns' == ns[r := WithSib(ns[r], l)]
    ensures Grown(ns, ns', r, l) && SibsInPool(ns')
    ensures forall u: nat :: NodeOK(pt, ns', u)
  {
    assert NodeOK(pt, ns, r);
    assert ns[r].sibs == [ns[r].sibs[0]] + ns[r].sibs[1..];
    forall u: nat, x: nat ensures Linked(ns', u, x) <==> Linked(ns, u, x) || (u == r && x == l) {
    }
    forall u: nat ensures NodeOK(pt, ns', u) {
      assert NodeOK(pt, ns, u);
    }
  }

  lemma PushShape(ctx: Context, w: Work, l: nat, b: nat, v: Tree)
    requires Shape(ctx, w) && l < |w.ns| && (w.ns[l].state, b) in ctx.pt.goto
    requires forall u :: u in w.tp ==> w.ns[u].state != ctx.pt.goto[(w.ns[l].state, b)]
    ensures var w' := Push(ctx, w, l, ctx.pt.goto[(w.ns[l].state, b)], v);
            Grown(w.ns, w'.ns, |w.ns|, l) && Shape(ctx, w')
  {
    var w' := Push(ctx, w, l, ctx.pt.goto[(w.ns[l].state, b)], v);
    assert GotoValid(ctx.pt, w.ns[l].state, b);
    forall u: nat, x: nat ensures Linked(w'.ns, u, x) <==> Linked(w.ns, u, x) || (u == |w.ns| && x == l) {
    }
    forall u: nat ensures NodeOK(ctx.pt, w'.ns, u) {
      assert NodeOK(ctx.pt, w.ns, u);
    }
    forall u: nat, x: nat ensures LinkOK(ctx.pt, w'.ns, u, x) && FrontierClosed(w'.ns, w'.tp, u, x) {
      assert LinkOK(ctx.pt, w.ns, u, x) && FrontierClosed(w.ns, w.tp, u, x);
    }
  }

  /** With a new link between existing nodes, the newly enabled paths are those that use it. */
  lemma EnabledByLink(pt: ParseTables, t: nat, ns: Pool, ns': Pool, tp: seq<nat>, r: nat, l: nat, p: Path)
    requires GraphOK(pt, ns) && Grown(ns, ns', r, l) && r < |ns|
    ensures Enabled(pt, t, ns', tp, p) && !Enabled(pt, t, ns, tp, p) <==> EnqueuedHere(pt, t, ns', tp, Some((r, l)), p)
  {
    if IsPath(ns, p.chain) {
      PathStays(ns, ns', r, l, p.chain);
    }
    if IsPath(ns', p.chain) && !Uses(p.chain, (r, l)) {
      PathIsOld(pt, ns, ns', r, l, p.chain);
    }
  }

  /** With a new node, they are those that start from it. */
  lemma EnabledByNode(pt: ParseTables, t: nat, ns: Pool, ns': Pool, tp: seq<nat>, l: nat, p: Path)
    requires GraphOK(pt, ns) && Grown(ns, ns', |ns|, l) && forall u :: u in tp ==> u < |ns|
    ensures Enabled(pt, t, ns', tp + [|ns|], p) && !Enabled(pt, t, ns, tp, p) <==>
            EnqueuedHere(pt, t, ns', [|ns|], None, p)
  {
    if IsPath(ns, p.chain) {
      PathStays(ns, ns', |ns|, l, p.chain);
    }
    if IsPath(ns', p.chain) && Last(p.chain) in tp {
      OldEnd(pt, ns, ns', l, p.chain);
    }
  }

  /** Nothing links to a new node, so a path into an old node avoids it. */
  lemma {:induction false} OldEnd(pt: ParseTables, ns: Pool, ns': Pool, l: nat, path: seq<nat>)
    requires GraphOK(pt, ns) && Grown(ns, ns', |ns|, l) && IsPath(ns', path) && Last(path) < |ns|
    ensures IsPath(ns, path)
    decreases |path|
  {
    if |path| > 1 {
      var k := |path| - 1;
      assert Linked(ns', path[k], path[k - 1]);
      assert LinkOK(pt, ns, path[k], path[k - 1]);
      OldEnd(pt, ns, ns', l, path[..k]);
      forall i, j | 0 <= i < j < |path| && j == i + 1 ensures Linked(ns, path[j], path[i]) {
        if j < k {
          assert Linked(ns, path[..k][j], path[..k][i]);
        }
      }
    }
  }

  lemma TailFacts(ctx: Context, w: Work, done: iset<Path>)
    requires Once(ctx, w, done) && w.queue != []
    ensures Sorted(ctx.pt, w.queue[1..]) && Distinct(w.queue[1..]) && w.queue[0] !in w.queue[1..]
    ensures forall p :: p in w.queue <==> p == w.queue[0] || p in w.queue[1..]
  {
    assert w.queue == [w.queue[0]] + w.queue[1..];
  }

  lemma QuietShape(ctx: Context, w: Work, done: iset<Path>, w': Work)
    requires Shape(ctx, w) && Once(ctx, w, done) && w.queue != [] && Quiet(w, w')
    ensures Shape(ctx, w') && QueueGrew(ctx, w, w')
  {
    TailFacts(ctx, w, done);
  }

  /** The state in which the reduced nonterminal is shifted. */
  function Yielded(w: Work): Work
    requires w.queue != []
  {
    w.(queue := w.queue[1..], links := YieldLinks(w.links, w.queue[0].chain))
  }

  function ReducedValue(w: Work): Tree
    requires w.queue != []
  {
    Node(w.queue[0].prod, ValuesOf(w.links, w.queue[0].chain))
  }

  /** The head of the queue can be processed, and yielding its values changes nothing else. */
  lemma ReadyToShift(ctx: Context, w: Work, done: iset<Path>)
    requires Shape(ctx, w) && Once(ctx, w, done) && w.queue != []
    ensures Ready(ctx.pt, w) && CanProcess(ctx, w, w.queue[0]) && IsPath(w.ns, w.queue[0].chain)
    ensures Shape(ctx, Yielded(w)) && Ready(ctx.pt, Yielded(w))
  {
    ShapeReady(ctx, w);
    assert Enabled(ctx.pt, ctx.token, w.ns, w.tp, w.queue[0]);
    EnabledSpells(ctx, w, w.queue[0]);
    YieldKeepsLinks(w.links, w.queue[0].chain);
    QuietShape(ctx, w, done, Yielded(w));
    ShapeReady(ctx, Yielded(w));
  }

  /** What one step of the worklist does to the graph and the queue. */
  lemma StepShape(ctx: Context, w: Work, done: iset<Path>) returns (grew: bool, r: nat)
    requires Shape(ctx, w) && Once(ctx, w, done) && w.queue != []
    ensures Ready(ctx.pt, w) && CanProcess(ctx, w, w.queue[0])
    ensures Shape(ctx, Step(ctx, w)) && QueueGrew(ctx, w, Step(ctx, w))
    ensures if grew then Grew(ctx, w, Step(ctx, w), w.queue[0], r) else Quiet(w, Step(ctx, w))
  {
    ShapeReady(ctx, w);
    var p := w.queue[0];
    EnabledSpells(ctx, w, p);
    YieldKeepsLinks(w.links, p.chain);
    var w1 := Yielded(w);
    QuietShape(ctx, w, done, w1);
    ShapeReady(ctx, w1);
    if ctx.keep(LhsOf(ctx.pt, p.prod), ReducedValue(w)) {
      grew, r := ShiftShape(ctx, w, done, ReducedValue(w));
    } else {
      grew, r := false, 0;
    }
  }

  lemma ShiftShape(ctx: Context, w: Work, done: iset<Path>, v: Tree) returns (grew: bool, r: nat)
    requires Shape(ctx, w) && Once(ctx, w, done) && w.queue != [] && CanProcess(ctx, w, w.queue[0])
    requires Shape(ctx, Yielded(w)) && Quiet(w, Yielded(w)) && Ready(ctx.pt, Yielded(w))
    ensures var w' := ShiftNonterminal(ctx, Yielded(w), w.queue[0].chain[0], LhsOf(ctx.pt, w.queue[0].prod), v);
            && Shape(ctx, w') && QueueGrew(ctx, w, w')
            && if grew then Grew(ctx, w, w', w.queue[0], r) else Quiet(w, w')
  {
    match OutcomeOf(ctx, Yielded(w), w.queue[0].chain[0], LhsOf(ctx.pt, w.queue[0].prod))
    case NewLink =>
      r := ShiftNewLink(ctx, w, done, v);
      grew := true;
    case NewNode =>
      r := ShiftNewNode(ctx, w, done, v);
      grew := true;
    case _ =>
      QuietShape(ctx, w, done,
        ShiftNonterminal(ctx, Yielded(w), w.queue[0].chain[0], LhsOf(ctx.pt, w.queue[0].prod), v));
      grew, r := false, 0;
  }

  lemma NewLinkShape(ctx: Context, w: Work, v: Tree) returns (r: nat)
    requires Shape(ctx, w) && w.queue != [] && CanProcess(ctx, w, w.queue[0])
    requires Shape(ctx, Yielded(w)) && Quiet(w, Yielded(w)) && Ready(ctx.pt, Yielded(w))
    requires OutcomeOf(ctx, Yielded(w), w.queue[0].chain[0], LhsOf(ctx.pt, w.queue[0].prod)) == NewLink
    ensures var w' := ShiftNonterminal(ctx, Yielded(w), w.queue[0].chain[0], LhsOf(ctx.pt, w.queue[0].prod), v);
            && Shape(ctx, w') && Grew(ctx, w, w', w.queue[0], r) && r < |w.ns|
            && w'.queue == InsertAll(ctx.pt, w.queue[1..],
                                     EnqueuedAll(ctx.pt, ctx.token, w'.ns, w.tp, Some((r, w.queue[0].chain[0]))))
  {
    var w1, b, l := Yielded(w), LhsOf(ctx.pt, w.queue[0].prod), w.queue[0].chain[0];
    r := FindTop(w1.ns, w1.tp, ctx.pt.goto[(w.ns[l].state, b)]).value;
    LinkShape(ctx, w1, r, l, b, v);
  }

  /** The paths that are revisited for the new link are the newly enabled ones. */
  lemma NewLinkQueue(ctx: Context, w: Work, done: iset<Path>, w': Work, r: nat)
    requires Shape(ctx, w) && Once(ctx, w, done) && w.queue != [] && Shape(ctx, w')
    requires Grew(ctx, w, w', w.queue[0], r) && r < |w.ns|
    requires ReductionsInRange(ctx.pt)
    requires w'.queue == InsertAll(ctx.pt, w.queue[1..],
                                   EnqueuedAll(ctx.pt, ctx.token, w'.ns, w.tp, Some((r, w.queue[0].chain[0]))))
    ensures QueueGrew(ctx, w, w')
  {
    var l := w.queue[0].chain[0];
    var added := EnqueuedAll(ctx.pt, ctx.token, w'.ns, w.tp, Some((r, l)));
    EnqueuedAllExact(ctx.pt, ctx.token, w'.ns, w.tp, Some((r, l)));
    forall p
      ensures p in added <==> Enabled(ctx.pt, ctx.token, w'.ns, w.tp, p) && !Enabled(ctx.pt, ctx.token, w.ns, w.tp, p)
    {
      EnabledByLink(ctx.pt, ctx.token, w.ns, w'.ns, w.tp, r, l, p);
    }
    QueueAdded(ctx, w, done, w', added);
  }

  lemma ShiftNewLink(ctx: Context, w: Work, done: iset<Path>, v: Tree) returns (r: nat)
    requires Shape(ctx, w) && Once(ctx, w, done) && w.queue != [] && CanProcess(ctx, w, w.queue[0])
    requires Shape(ctx, Yielded(w)) && Quiet(w, Yielded(w)) && Ready(ctx.pt, Yielded(w))
    requires OutcomeOf(ctx, Yielded(w), w.queue[0].chain[0], LhsOf(ctx.pt, w.queue[0].prod)) == NewLink
    ensures var w' := ShiftNonterminal(ctx, Yielded(w), w.queue[0].chain[0], LhsOf(ctx.pt, w.queue[0].prod), v);
            Shape(ctx, w') && QueueGrew(ctx, w, w') && Grew(ctx, w, w', w.queue[0], r)
  {
    r := NewLinkShape(ctx, w, v);
    NewLinkQueue(ctx, w, done,
                 ShiftNonterminal(ctx, Yielded(w), w.queue[0].chain[0], LhsOf(ctx.pt, w.queue[0].prod), v), r);
  }

  lemma ShiftNewNode(ctx: Context, w: Work, done: iset<Path>, v: Tree) returns (r: nat)
    requires Shape(ctx, w) && Once(ctx, w, done) && w.queue != [] && CanProcess(ctx, w, w.queue[0])
    requires Shape(ctx, Yielded(w)) && Quiet(w, Yielded(w)) && Ready(ctx.pt, Yielded(w))
    requires OutcomeOf(ctx, Yielded(w), w.queue[0].chain[0], LhsOf(ctx.pt, w.queue[0].prod)) == NewNode
    ensures var w' := ShiftNonterminal(ctx, Yielded(w), w.queue[0].chain[0], LhsOf(ctx.pt, w.queue[0].prod), v);
            Shape(ctx, w') && QueueGrew(ctx, w, w') && Grew(ctx, w, w', w.queue[0], r)
  {
    var w1, b, l := Yielded(w), LhsOf(ctx.pt, w.queue[0].prod), w.queue[0].chain[0];
    r := |w.ns|;
    var w2 := Push(ctx, w1, l, ctx.pt.goto[(w.ns[l].state, b)], v);
    PushShape(ctx, w1, l, b, v);
    var added := EnqueuedAll(ctx.pt, ctx.token, w2.ns, [r], None);
    EnqueuedAllExact(ctx.pt, ctx.token, w2.ns, [r], None);
    forall p
      ensures p in added <==> Enabled(ctx.pt, ctx.token, w2.ns, w2.tp, p) && !Enabled(ctx.pt, ctx.token, w.ns, w.tp, p)
    {
      EnabledByNode(ctx.pt, ctx.token, w.ns, w2.ns, w.tp, l, p);
    }
    QueueAdded(ctx, w, done, w2, added);
  }

  /** Inserting exactly the newly enabled paths keeps the queue distinct and sorted. */
  lemma QueueAdded(ctx: Context, w: Work, done: iset<Path>, w2: Work, added: seq<Path>)
    requires Once(ctx, w, done) && w.queue != [] && ProdsOK(ctx.pt, added) && Distinct(added)
    requires forall p :: p in added <==>
               Enabled(ctx.pt, ctx.token, w2.ns, w2.tp, p) && !Enabled(ctx.pt, ctx.token, w.ns, w.tp, p)
    ensures QueueGrew(ctx, w, w2.(queue := InsertAll(ctx.pt, w.queue[1..], added)))
  {
    TailFacts(ctx, w, done);
    DistinctInsertAll(ctx.pt, w.queue[1..], added);
    InsertAllSorted(ctx.pt, w.queue[1..], added);
  }

  /** The step processes one path, which was not processed before, and keeps the balance. */
  lemma StepOnce(ctx: Context, w: Work, done: iset<Path>) returns (grew: bool, r: nat)
    requires Shape(ctx, w) && Once(ctx, w, done) && w.queue != []
    ensures Ready(ctx.pt, w) && CanProcess(ctx, w, w.queue[0]) && w.queue[0] !in done
    ensures Shape(ctx, Step(ctx, w)) && Once(ctx, Step(ctx, w), done + iset{w.queue[0]})
    ensures QueueGrew(ctx, w, Step(ctx, w))
    ensures if grew then Grew(ctx, w, Step(ctx, w), w.queue[0], r) else Quiet(w, Step(ctx, w))
  {
    grew, r := StepShape(ctx, w, done);
    TailFacts(ctx, w, done);
    if grew {
      forall p | Enabled(ctx.pt, ctx.token, w.ns, w.tp, p)
        ensures Enabled(ctx.pt, ctx.token, Step(ctx, w).ns, Step(ctx, w).tp, p)
      {
        PathStays(w.ns, Step(ctx, w).ns, r, w.queue[0].chain[0], p.chain);
      }
    }
  }

  // ---------------------------------------------------------------- termination

  lemma {:induction false} RowBound(row: set<Edge>, a: nat, m: nat)
    requires forall e :: e in row ==> e.0 == a && e.1 < m
    ensures |row| <= m
  {
    if m == 0 {
      assert row == {} by {
        forall e | e in row ensures false {
        }
      }
    } else {
      RowBound(row - {(a, m - 1)}, a, m - 1);
    }
  }

  lemma {:induction false} PairsBound(pairs: set<Edge>, n: nat, m: nat)
    requires forall e :: e in pairs ==> e.0 < n && e.1 < m
    ensures |pairs| <= n * m
  {
    if n == 0 {
      assert pairs == {} by {
        forall e | e in pairs ensures false {
        }
      }
    } else {
      var row := set e | e in pairs && e.0 == n - 1;
      RowBound(row, n - 1, m);
      PairsBound(pairs - row, n - 1, m);
      assert n * m == (n - 1) * m + m;
      assert pairs == (pairs - row) + row;
    }
  }

  lemma {:induction false} DistinctBounded(s: seq<nat>, n: nat)
    requires Distinct(s) && forall i :: 0 <= i < |s| ==> s[i] < n
    ensures |s| <= n
    decreases n
  {
    if s != [] {
      var k := |s| - 1;
      assert s[k] < n;
      if exists j :: 0 <= j < k && s[j] == n - 1 {
        var j :| 0 <= j < k && s[j] == n - 1;
        DistinctBounded(s[..k][j := s[k]], n - 1);
      } else {
        DistinctBounded(s[..k], n - 1);
      }
    }
  }

  /** The links that the worklist may still add: no node outside the frontier is ever created,
      and there is at most one frontier node per state. */
  ghost function RoomForLinks(ctx: Context, w: Work): int {
    Room(|w.ns| - |w.tp| + ctx.pt.numStates, |w.links|)
  }

  ghost function Room(most: int, links: nat): int {
    most * most - links
  }

  lemma RoomIsNatural(ctx: Context, w: Work)
    requires Shape(ctx, w)
    ensures RoomForLinks(ctx, w) >= 0
  {
    var states := seq(|w.tp|, i requires 0 <= i < |w.tp| => w.ns[w.tp[i]].state);
    forall i | 0 <= i < |states| ensures states[i] < ctx.pt.numStates {
      assert NodeOK(ctx.pt, w.ns, w.tp[i]);
    }
    DistinctBounded(states, ctx.pt.numStates);
    DistinctBounded(w.tp, |w.ns|);
    var most := |w.ns| - |w.tp| + ctx.pt.numStates;
    forall e | e in w.links.Keys ensures e.0 < most && e.1 < most {
      assert Linked(w.ns, e.0, e.1) && LinkOK(ctx.pt, w.ns, e.0, e.1);
    }
    PairsBound(w.links.Keys, most, most);
    assert |w.links| == |w.links.Keys|;
  }

  /** Each step adds a link or shortens the queue, whatever the grammar; so the worklist ends. */
  lemma StepTerminates(ctx: Context, w: Work, done: iset<Path>)
    requires Shape(ctx, w) && Once(ctx, w, done) && w.queue != []
    ensures Ready(ctx.pt, w) && CanProcess(ctx, w, w.queue[0])
    ensures var w' := Step(ctx, w);
            || 0 <= RoomForLinks(ctx, w') < RoomForLinks(ctx, w)
            || (RoomForLinks(ctx, w') == RoomForLinks(ctx, w) && |w'.queue| < |w.queue|)
  {
    var grew, r := StepOnce(ctx, w, done);
    var w' := Step(ctx, w);
    RoomIsNatural(ctx, w');
    assert |w'.links| == |w'.links.Keys| && |w.links| == |w.links.Keys|;
    if grew {
      LinkAdded(ctx, w, w', r);
    }
  }

  lemma LinkAdded(ctx: Context, w: Work, w': Work, r: nat)
    requires LinksExact(w.ns, w.links) && w.queue != [] && Grew(ctx, w, w', w.queue[0], r)
    ensures RoomForLinks(ctx, w') == RoomForLinks(ctx, w) - 1
  {
    OneMoreLink(w.ns, w.links, w'.links, r, w.queue[0].chain[0]);
    var most := |w.ns| - |w.tp| + ctx.pt.numStates;
    assert RoomForLinks(ctx, w') == Room(most, |w.links| + 1);
  }

  lemma OneMoreLink(ns: Pool, links: Links, links': Links, r: nat, l: nat)
    requires LinksExact(ns, links) && !Linked(ns, r, l) && links'.Keys == links.Keys + {(r, l)}
    ensures |links'| == |links| + 1
  {
    assert (r, l) !in links;
    assert |links'.Keys| == |links.Keys| + 1;
    assert |links'| == |links'.Keys| && |links| == |links.Keys|;
  }
}
